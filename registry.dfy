/**
 * The generic ordered registry of internal/registry/registry.go: a name-to-value map
 * together with the sequence of names in registration order. It is reused for the
 * gateways and for the circuit breakers.
 *
 * The pure functions below specify what each operation computes; the class `Registry`
 * holds the two mutable fields and its methods are proved against those functions.
 */
module OrderedRegistry {
  import opened Wrappers
  import opened ErrorChain

  // ---------------------------------------------------------------------------
  // Specification functions
  // ---------------------------------------------------------------------------

  /** No name occurs twice. */
  predicate Distinct(s: seq<string>) {
    forall i, j :: 0 <= i < j < |s| ==> s[i] != s[j]
  }

  /**
   * The registry's intended invariant: the map's keys and the names in the order
   * sequence are the same set, and the order sequence has no repeats.
   */
  ghost predicate Consistent<T>(m: map<string, T>, order: seq<string>) {
    (forall k :: k in m <==> k in order) && Distinct(order)
  }

  /** Index of the first occurrence of `x` in `s`, or -1: the source's search loops. */
  function IndexOf(s: seq<string>, x: string): (i: int)
    ensures -1 <= i < |s|
    ensures i >= 0 ==> s[i] == x && x !in s[..i]
    ensures i == -1 <==> x !in s
  {
    if s == [] then -1
    else if s[0] == x then 0
    else
      var j := IndexOf(s[1..], x);
      if j == -1 then -1
      else
        assert s[..j + 1] == [s[0]] + s[1..][..j];
        j + 1
  }

  /** The first occurrence is the only index before which `x` does not occur. */
  lemma IndexOfUnique(s: seq<string>, x: string, i: int)
    requires 0 <= i < |s| && s[i] == x && x !in s[..i]
    ensures IndexOf(s, x) == i
  {
    assert x in s;
    var j := IndexOf(s, x);
    assert j >= 0 && s[j] == x;
    assert forall k :: 0 <= k < i ==> s[..i][k] == s[k];
    assert forall k :: 0 <= k < j ==> s[..j][k] == s[k];
  }

  /** `s` without its element at index `i`: Go's `append(s[:i], s[i+1:]...)`. */
  function RemoveAt(s: seq<string>, i: nat): (r: seq<string>)
    requires i < |s|
    ensures |r| == |s| - 1
  {
    s[..i] + s[i + 1..]
  }

  /** What Unregister leaves in `order`: the first occurrence of `x` removed, if any. */
  function RemoveFirst(s: seq<string>, x: string): seq<string> {
    var i := IndexOf(s, x);
    if i == -1 then s else RemoveAt(s, i)
  }

  /** `s` with every occurrence of `x` dropped and the rest in their original order. */
  function Without(s: seq<string>, x: string): (r: seq<string>)
    ensures |r| <= |s|
  {
    if s == [] then []
    else (if s[0] == x then [] else [s[0]]) + Without(s[1..], x)
  }

  lemma WithoutAbsent(s: seq<string>, x: string)
    requires x !in s
    ensures Without(s, x) == s
  {
    if s != [] {
      WithoutAbsent(s[1..], x);
    }
  }

  lemma WithoutConcat(a: seq<string>, b: seq<string>, x: string)
    ensures Without(a + b, x) == Without(a, x) + Without(b, x)
  {
    if a == [] {
      assert a + b == b;
    } else {
      assert (a + b)[1..] == a[1..] + b;
      WithoutConcat(a[1..], b, x);
    }
  }

  /**
   * When order has no repeats, removing the first occurrence removes every occurrence
   * and keeps the relative order of all the other names.
   */
  lemma {:induction false} RemoveFirstIsWithout(s: seq<string>, x: string)
    requires Distinct(s)
    ensures RemoveFirst(s, x) == Without(s, x)
    ensures x !in RemoveFirst(s, x)
  {
    var i := IndexOf(s, x);
    if i == -1 {
      WithoutAbsent(s, x);
    } else {
      var pre, post := s[..i], s[i + 1..];
      assert x !in post by {
        assert forall k :: 0 <= k < |post| ==> post[k] == s[i + 1 + k];
      }
      assert s == pre + [x] + post;
      WithoutOnce(pre, post, x);
    }
  }

  /** Dropping a name that occurs once, between `pre` and `post`. */
  lemma {:induction false} WithoutOnce(pre: seq<string>, post: seq<string>, x: string)
    requires x !in pre && x !in post
    ensures Without(pre + [x] + post, x) == pre + post
    ensures x !in pre + post
  {
    calc {
      Without(pre + [x] + post, x);
    == { assert pre + [x] + post == pre + ([x] + post); WithoutConcat(pre, [x] + post, x); }
      Without(pre, x) + Without([x] + post, x);
    == { assert ([x] + post)[1..] == post; }
      Without(pre, x) + Without(post, x);
    == { WithoutAbsent(pre, x); WithoutAbsent(post, x); }
      pre + post;
    }
  }

  /** The value Go's map index `m[k]` yields: the stored value, or the zero value. */
  function Lookup<T>(m: map<string, T>, zero: T, k: string): (v: T)
    ensures k in m ==> v == m[k]
    ensures k !in m ==> v == zero
  {
    if k in m then m[k] else zero
  }

  /** `Lookup` applied to every name, in order. */
  function Lookups<T>(m: map<string, T>, zero: T, names: seq<string>): (vs: seq<T>)
    ensures |vs| == |names|
  {
    if names == [] then []
    else Lookups(m, zero, names[..|names| - 1]) + [Lookup(m, zero, names[|names| - 1])]
  }

  /** What List() returns: the values of the names in `order` that are in the map. */
  function Values<T>(m: map<string, T>, order: seq<string>): (vs: seq<T>)
    ensures |vs| <= |order|
  {
    if order == [] then []
    else
      var last := order[|order| - 1];
      Values(m, order[..|order| - 1]) + (if last in m then [m[last]] else [])
  }

  lemma {:induction false} ValuesConcat<T>(m: map<string, T>, a: seq<string>, b: seq<string>)
    ensures Values(m, a + b) == Values(m, a) + Values(m, b)
    decreases |b|
  {
    if b == [] {
      assert a + b == a;
    } else {
      var b' := b[..|b| - 1];
      assert (a + b)[..|a + b| - 1] == a + b';
      ValuesConcat(m, a, b');
    }
  }

  /** When every name of `names` is registered, List() has one value per name. */
  lemma {:induction false} ValuesAllPresent<T>(m: map<string, T>, names: seq<string>)
    requires forall k :: k in names ==> k in m
    ensures |Values(m, names)| == |names|
    ensures forall i :: 0 <= i < |names| ==> Values(m, names)[i] == m[names[i]]
  {
    if names != [] {
      var init := names[..|names| - 1];
      assert forall k :: k in init ==> k in names;
      ValuesAllPresent(m, init);
    }
  }

  /** When every name of `names` is registered, List() and Go's map indexing agree. */
  lemma ValuesAreLookups<T>(m: map<string, T>, zero: T, names: seq<string>)
    requires forall k :: k in names ==> k in m
    ensures Values(m, names) == Lookups(m, zero, names)
  {
    ValuesAllPresent(m, names);
    LookupsAt(m, zero, names);
  }

  lemma {:induction false} LookupsAt<T>(m: map<string, T>, zero: T, names: seq<string>)
    ensures forall i :: 0 <= i < |names| ==> Lookups(m, zero, names)[i] == Lookup(m, zero, names[i])
  {
    if names != [] {
      LookupsAt(m, zero, names[..|names| - 1]);
    }
  }

  /** A repeat-free sequence has as many distinct elements as it has positions. */
  lemma {:induction false} DistinctCard(s: seq<string>)
    requires Distinct(s)
    ensures |set k | k in s| == |s|
  {
    if s != [] {
      var init := s[..|s| - 1];
      var last := s[|s| - 1];
      assert Distinct(init);
      DistinctCard(init);
      assert last !in init;
      assert (set k | k in s) == (set k | k in init) + {last};
    }
  }

  /** Under the invariant the order sequence is exactly as long as the map is large. */
  lemma ConsistentSize<T>(m: map<string, T>, order: seq<string>)
    requires Consistent(m, order)
    ensures |order| == |m|
  {
    DistinctCard(order);
    assert m.Keys == set k | k in order;
  }

  /** List() under the invariant: one value per registered name, in registration order. */
  lemma ListConsistent<T>(m: map<string, T>, order: seq<string>)
    requires Consistent(m, order)
    ensures |Values(m, order)| == |m| == |order|
    ensures forall i :: 0 <= i < |order| ==> Values(m, order)[i] == m[order[i]]
  {
    ConsistentSize(m, order);
    ValuesAllPresent(m, order);
  }

  /** Register keeps the invariant. */
  lemma ConsistentRegister<T>(m: map<string, T>, order: seq<string>, k: string, v: T)
    requires Consistent(m, order) && k !in m
    ensures Consistent(m[k := v], order + [k])
  {
  }

  /** Where each element of `RemoveAt(s, i)` came from. */
  lemma RemoveAtIndex(s: seq<string>, i: nat)
    requires i < |s|
    ensures forall j :: 0 <= j < |RemoveAt(s, i)| ==> RemoveAt(s, i)[j] == s[if j < i then j else j + 1]
  {
  }

  /** Removing one element keeps a sequence free of repeats. */
  lemma DistinctRemoveAt(s: seq<string>, i: nat)
    requires i < |s| && Distinct(s)
    ensures Distinct(RemoveAt(s, i))
  {
    var r := RemoveAt(s, i);
    RemoveAtIndex(s, i);
    forall a, b | 0 <= a < b < |r| ensures r[a] != r[b] {
      assert r[a] == s[if a < i then a else a + 1];
    }
  }

  /** The names left by `RemoveAt(s, i)` are those of `s` other than `s[i]`, if `s` has no repeats. */
  lemma MembersRemoveAt(s: seq<string>, i: nat, n: string)
    requires i < |s| && Distinct(s)
    ensures n in RemoveAt(s, i) <==> n in s && n != s[i]
  {
    var r := RemoveAt(s, i);
    RemoveAtIndex(s, i);
    if n in r {
      var p :| 0 <= p < |r| && r[p] == n;
      assert n == s[if p < i then p else p + 1];
    }
    if n in s && n != s[i] {
      var p :| 0 <= p < |s| && s[p] == n;
      assert n == r[if p < i then p else p - 1];
    }
  }

  /** Unregister keeps the invariant. */
  lemma ConsistentUnregister<T>(m: map<string, T>, order: seq<string>, k: string)
    requires Consistent(m, order) && k in m
    ensures Consistent(m - {k}, RemoveFirst(order, k))
  {
    var i := IndexOf(order, k);
    DistinctRemoveAt(order, i);
    forall n ensures n in m - {k} <==> n in RemoveFirst(order, k) {
      MembersRemoveAt(order, i, n);
    }
  }

  /** The first name of `order` that is not registered: where SetOrder's loop stops. */
  function FirstUnknown<T>(m: map<string, T>, order: seq<string>): (n: Option<string>)
    ensures n.None? <==> forall k :: k in order ==> k in m
    ensures n.Some? ==> n.value in order && n.value !in m
  {
    if order == [] then None
    else if order[0] !in m then Some(order[0])
    else
      var rest := FirstUnknown(m, order[1..]);
      assert forall k :: k in order[1..] ==> k in order;
      assert forall k :: k in order && k != order[0] ==> k in order[1..];
      rest
  }

  /** SetOrder's verdict: the length check, then the membership check. */
  function OrderVerdict<T>(m: map<string, T>, current: nat, order: seq<string>): (e: Option<Error>)
    ensures e.None? <==> |order| == current && forall n :: n in order ==> n in m
  {
    if |order| != current then Some(Leaf("order length does not match registry length"))
    else
      match FirstUnknown(m, order)
      case None => None
      case Some(n) => Some(Leaf("invalid element in order: " + n))
  }

  /** The source's ListWithPreference (registry.go): unknown preference falls back to List(). */
  function PreferenceList<T>(m: map<string, T>, order: seq<string>, zero: T, preferred: string): Result<seq<T>, Error> {
    if |order| == 0 then Failure(Leaf("no registry registered"))
    else if preferred == "" then Success(Values(m, order))
    else
      var i := IndexOf(order, preferred);
      if i == -1 then Success(Values(m, order))
      else Success([Lookup(m, zero, preferred)] + Lookups(m, zero, RemoveAt(order, i)))
  }

  /** Taking one registered name out of a name sequence takes its value out of Values. */
  lemma ValuesRemoveAt<T>(m: map<string, T>, order: seq<string>, i: nat)
    requires i < |order| && order[i] in m
    ensures multiset(Values(m, order)) == multiset([m[order[i]]] + Values(m, RemoveAt(order, i)))
  {
    var p := order[i];
    assert order == order[..i] + [p] + order[i + 1..];
    ValuesConcat(m, order[..i] + [p], order[i + 1..]);
    ValuesConcat(m, order[..i], [p]);
    ValuesConcat(m, order[..i], order[i + 1..]);
    assert Values(m, [p]) == [m[p]] by {
      assert [p][..0] == [];
    }
  }

  /**
   * A registered, non-empty preferred name under the invariant: its value first, then
   * the values of all other names in registration order; as many values as registered
   * names, and the same values as List() in another order.
   */
  lemma PreferenceRegistered<T>(m: map<string, T>, order: seq<string>, zero: T, preferred: string)
    requires Consistent(m, order) && preferred in m && preferred != ""
    ensures PreferenceList(m, order, zero, preferred).Success?
    ensures var vs := PreferenceList(m, order, zero, preferred).value;
      && |vs| == |m|
      && vs[0] == m[preferred]
      && vs[1..] == Values(m, Without(order, preferred))
      && multiset(vs) == multiset(Values(m, order))
  {
    var i := IndexOf(order, preferred);
    var rest := RemoveAt(order, i);
    var vs := [m[preferred]] + Values(m, rest);
    assert forall k :: k in rest ==> k in m by {
      forall k | k in rest ensures k in m {
        MembersRemoveAt(order, i, k);
      }
    }
    assert PreferenceList(m, order, zero, preferred) == Success(vs) by {
      ValuesAreLookups(m, zero, rest);
    }
    assert rest == Without(order, preferred) by {
      RemoveFirstIsWithout(order, preferred);
    }
    assert |vs| == |m| by {
      ConsistentSize(m, order);
      ValuesAllPresent(m, rest);
    }
    assert vs[1..] == Values(m, rest);
    ValuesRemoveAt(m, order, i);
  }

  /** An empty or unregistered preference under the invariant yields exactly List(). */
  lemma PreferenceFallback<T>(m: map<string, T>, order: seq<string>, zero: T, preferred: string)
    requires Consistent(m, order) && (preferred !in m || preferred == "") && order != []
    ensures PreferenceList(m, order, zero, preferred) == Success(Values(m, order))
  {
  }

  // ---------------------------------------------------------------------------
  // The registry object
  // ---------------------------------------------------------------------------

  class Registry<T> {
    var registry: map<string, T>
    var order: seq<string>
    /** Go's zero value of T, which Get and map indexing yield for a missing name. */
    const zero: T

    ghost predicate Valid()
      reads this
    {
      Consistent(registry, order)
    }

    /** NewRegistry. */
    constructor (zero: T)
      ensures registry == map[] && order == [] && this.zero == zero
      ensures Valid()
    {
      registry := map[];
      order := [];
      this.zero := zero;
    }

    method Register(name: string, value: T) returns (err: Option<Error>)
      modifies this
      ensures err.Some? <==> name in old(registry)
      ensures err.Some? ==> err.value == Leaf("value already registered")
      ensures err.Some? ==> registry == old(registry) && order == old(order)
      ensures err.None? ==> registry == old(registry)[name := value] && order == old(order) + [name]
      ensures old(Valid()) ==> Valid()
    {
      if name in registry {
        return Some(Leaf("value already registered"));
      }
      if Valid() {
        ConsistentRegister(registry, order, name, value);
      }
      registry := registry[name := value];
      order := order + [name];
      return None;
    }

    method Unregister(name: string) returns (err: Option<Error>)
      modifies this
      ensures err.Some? <==> name !in old(registry)
      ensures err.Some? ==> err.value == Leaf("value not found")
      ensures err.Some? ==> registry == old(registry) && order == old(order)
      ensures err.None? ==> registry == old(registry) - {name} && order == RemoveFirst(old(order), name)
      ensures old(Valid()) ==> Valid()
    {
      if name !in registry {
        return Some(Leaf("value not found"));
      }
      if Valid() {
        ConsistentUnregister(registry, order, name);
      }
      registry := registry - {name};
      var i := 0;
      while i < |order|
        invariant 0 <= i <= |order| && order == old(order)
        invariant name !in order[..i]
      {
        if order[i] == name {
          IndexOfUnique(order, name, i);
          order := RemoveAt(order, i);
          return None;
        }
        assert order[..i + 1] == order[..i] + [order[i]];
        i := i + 1;
      }
      assert order[..i] == order;
      return None;
    }

    method Get(name: string) returns (value: T, err: Option<Error>)
      ensures err.None? <==> name in registry
      ensures err.None? ==> value == registry[name]
      ensures err.Some? ==> value == zero && err.value == Leaf("value not found")
    {
      if name !in registry {
        return zero, Some(Leaf("value not found"));
      }
      return registry[name], None;
    }

    method List() returns (values: seq<T>)
      ensures values == Values(registry, order)
    {
      values := [];
      var i := 0;
      while i < |order|
        invariant 0 <= i <= |order|
        invariant values == Values(registry, order[..i])
      {
        var value, err := Get(order[i]);
        assert order[..i + 1][..i] == order[..i];
        if err.None? {
          values := values + [value];
        }
        i := i + 1;
      }
      assert order[..i] == order;
    }

    method SetOrder(newOrder: seq<string>) returns (err: Option<Error>)
      modifies this
      ensures err == OrderVerdict(old(registry), |old(order)|, newOrder)
      ensures registry == old(registry)
      ensures order == if err.None? then newOrder else old(order)
    {
      if |newOrder| != |order| {
        return Some(Leaf("order length does not match registry length"));
      }
      var i := 0;
      while i < |newOrder|
        invariant 0 <= i <= |newOrder|
        invariant FirstUnknown(registry, newOrder) == FirstUnknown(registry, newOrder[i..])
      {
        if newOrder[i] !in registry {
          return Some(Leaf("invalid element in order: " + newOrder[i]));
        }
        assert newOrder[i..][1..] == newOrder[i + 1..];
        i := i + 1;
      }
      order := newOrder;
      return None;
    }

    /**
     * SetOrder as the design intends it: the new order must be a permutation of the
     * registered names, so repeats are refused as well.
     */
    method SetOrderChecked(newOrder: seq<string>) returns (err: Option<Error>)
      requires Valid()
      modifies this
      ensures err == PermutationVerdict(old(registry), |old(order)|, newOrder)
      ensures registry == old(registry)
      ensures order == if err.None? then newOrder else old(order)
      ensures Valid()
    {
      var previous := order;
      err := SetOrder(newOrder);
      if err.None? && !Distinct(newOrder) {
        order := previous;
        err := Some(Leaf("duplicate element in order"));
      }
      if err.None? {
        PermutationVerdictSound(registry, old(order), newOrder);
      }
    }

    method ListWithPreference(preferred: string) returns (r: Result<seq<T>, Error>)
      ensures r == PreferenceList(registry, order, zero, preferred)
    {
      if |order| == 0 {
        return Failure(Leaf("no registry registered"));
      }
      if preferred == "" {
        var all := List();
        return Success(all);
      }
      var preferredIndex := -1;
      var i := 0;
      while i < |order|
        invariant 0 <= i <= |order|
        invariant preferred !in order[..i]
      {
        if order[i] == preferred {
          preferredIndex := i;
          break;
        }
        assert order[..i + 1] == order[..i] + [order[i]];
        i := i + 1;
      }
      if preferredIndex == -1 {
        assert order[..i] == order;
        var all := List();
        return Success(all);
      }
      IndexOfUnique(order, preferred, preferredIndex);
      var ordered := PreferredFirst(registry, zero, order, preferredIndex);
      return Success(ordered);
    }
  }

  /**
   * The list-building loop of ListWithPreference: the preferred name's value, then the
   * value of every other position of `order`, read with Go's map indexing.
   */
  method PreferredFirst<T>(m: map<string, T>, zero: T, order: seq<string>, preferredIndex: nat) returns (ordered: seq<T>)
    requires preferredIndex < |order|
    ensures ordered == [Lookup(m, zero, order[preferredIndex])] + Lookups(m, zero, RemoveAt(order, preferredIndex))
  {
    ordered := [Lookup(m, zero, order[preferredIndex])];
    var i := 0;
    while i < |order|
      invariant 0 <= i <= |order|
      invariant ordered == Built(m, zero, order, preferredIndex, i)
    {
      if i != preferredIndex {
        ordered := ordered + [Lookup(m, zero, order[i])];
      }
      i := i + 1;
    }
    BuiltAll(m, zero, order, preferredIndex, i);
    assert order[..i] == order;
  }

  /** What PreferredFirst's loop has built after its first `i` iterations. */
  function Built<T>(m: map<string, T>, zero: T, order: seq<string>, p: nat, i: nat): seq<T>
    requires p < |order| && i <= |order|
  {
    if i == 0 then [Lookup(m, zero, order[p])]
    else Built(m, zero, order, p, i - 1) + (if i - 1 == p then [] else [Lookup(m, zero, order[i - 1])])
  }

  /** After `i` iterations the loop holds the preferred value and those of the other first `i` positions. */
  lemma {:induction false} BuiltAll<T>(m: map<string, T>, zero: T, order: seq<string>, p: nat, i: nat)
    requires p < |order| && i <= |order|
    ensures Built(m, zero, order, p, i) == [Lookup(m, zero, order[p])] + Lookups(m, zero, Skip(order[..i], p))
  {
    if i == 0 {
      assert order[..0] == [];
    } else {
      var k := i - 1;
      var head := [Lookup(m, zero, order[p])];
      var before := Lookups(m, zero, Skip(order[..k], p));
      BuiltAll(m, zero, order, p, k);
      PreferredStep(m, zero, order, p, k);
      if k == p {
        assert Built(m, zero, order, p, i) == Built(m, zero, order, p, k) + [];
      } else {
        var v := Lookup(m, zero, order[k]);
        assert Built(m, zero, order, p, i) == (head + before) + [v];
        assert (head + before) + [v] == head + (before + [v]);
      }
    }
  }

  /** One iteration of PreferredFirst's loop: position `i` is skipped or appended. */
  lemma PreferredStep<T>(m: map<string, T>, zero: T, order: seq<string>, p: nat, i: nat)
    requires i < |order| && p < |order|
    ensures i == p ==> Lookups(m, zero, Skip(order[..i + 1], p)) == Lookups(m, zero, Skip(order[..i], p))
    ensures i != p ==>
      Lookups(m, zero, Skip(order[..i + 1], p)) == Lookups(m, zero, Skip(order[..i], p)) + [Lookup(m, zero, order[i])]
  {
    SkipStep(order, i, p);
    if i != p {
      LookupsSnoc(m, zero, Skip(order[..i], p), order[i]);
    }
  }

  lemma LookupsSnoc<T>(m: map<string, T>, zero: T, names: seq<string>, k: string)
    ensures Lookups(m, zero, names + [k]) == Lookups(m, zero, names) + [Lookup(m, zero, k)]
  {
    assert (names + [k])[..|names|] == names;
  }

  /** The prefix `t` of the order sequence with index `i` left out when it lies in `t`. */
  function Skip(t: seq<string>, i: nat): seq<string> {
    if i < |t| then RemoveAt(t, i) else t
  }

  lemma SkipStep(order: seq<string>, k: nat, i: nat)
    requires k < |order| && i < |order|
    ensures k == i ==> Skip(order[..k + 1], i) == Skip(order[..k], i)
    ensures k != i ==> Skip(order[..k + 1], i) == Skip(order[..k], i) + [order[k]]
  {
    if k > i {
      assert order[..k + 1][..i] == order[..k][..i];
      assert order[..k + 1][i + 1..] == order[..k][i + 1..] + [order[k]];
    }
  }

  // ---------------------------------------------------------------------------
  // SetOrder and the invariant
  // ---------------------------------------------------------------------------

  /**
   * SetOrder's checks let a repeated name through: with three registered names the
   * order ["key1", "key1", "key3"] passes both checks, and afterwards "key2" is
   * registered but absent from the order sequence.
   */
  lemma SetOrderBreaksInvariant<T>(v1: T, v2: T, v3: T)
    ensures var m := map["key1" := v1, "key2" := v2, "key3" := v3];
      && Consistent(m, ["key1", "key2", "key3"])
      && OrderVerdict(m, 3, ["key1", "key1", "key3"]).None?
      && !Consistent(m, ["key1", "key1", "key3"])
  {
    var m := map["key1" := v1, "key2" := v2, "key3" := v3];
    var o := ["key1", "key2", "key3"];
    assert o[0] == "key1" && o[1] == "key2" && o[2] == "key3";
    assert forall k :: k in m <==> k in o;
    var bad := ["key1", "key1", "key3"];
    assert bad[0] == bad[1];
  }

  /**
   * What that broken state leads to: after Unregister("key1") the stale "key1" stays in
   * the order sequence, and ListWithPreference("key1") puts the zero value first.
   */
  lemma StaleNameListsZero<T>(v1: T, v2: T, v3: T, zero: T)
    ensures var m := map["key1" := v1, "key2" := v2, "key3" := v3] - {"key1"};
      var order := RemoveFirst(["key1", "key1", "key3"], "key1");
      && order == ["key1", "key3"]
      && PreferenceList(m, order, zero, "key1") == Success([zero, v3])
  {
    var m := map["key1" := v1, "key2" := v2, "key3" := v3] - {"key1"};
    var s := ["key1", "key1", "key3"];
    IndexOfUnique(s, "key1", 0);
    var order := RemoveFirst(s, "key1");
    assert order == ["key1", "key3"];
    IndexOfUnique(order, "key1", 0);
    assert "key1" !in m && "key3" in m;
    assert RemoveAt(order, 0) == ["key3"];
    assert Lookups(m, zero, ["key3"]) == [v3] by {
      assert ["key3"][..0] == [];
    }
    assert Lookup(m, zero, "key1") == zero;
    assert PreferenceList(m, order, zero, "key1") == Success([zero] + [v3]);
    assert [zero] + [v3] == [zero, v3];
  }

  /** The corrected verdict: SetOrder's two checks and a check for repeats. */
  function PermutationVerdict<T>(m: map<string, T>, current: nat, order: seq<string>): Option<Error> {
    var e := OrderVerdict(m, current, order);
    if e.Some? then e
    else if !Distinct(order) then Some(Leaf("duplicate element in order"))
    else None
  }

  /**
   * With the correction an order is accepted exactly when it is a permutation of the
   * registered names, so the invariant holds after every accepted SetOrder.
   */
  lemma PermutationVerdictSound<T>(m: map<string, T>, old_order: seq<string>, order: seq<string>)
    requires Consistent(m, old_order)
    ensures PermutationVerdict(m, |old_order|, order).None? <==> Consistent(m, order)
  {
    ConsistentSize(m, old_order);
    if PermutationVerdict(m, |old_order|, order).None? {
      DistinctCard(order);
      var names := set k | k in order;
      assert names <= m.Keys;
      assert |names| == |m.Keys|;
      SubsetEqualCard(names, m.Keys);
    }
    if Consistent(m, order) {
      ConsistentSize(m, order);
    }
  }

  lemma SubsetEqualCard(a: set<string>, b: set<string>)
    requires a <= b && |a| == |b|
    ensures a == b
  {
    assert b == a + (b - a);
    assert a * (b - a) == {};
    assert |b - a| == 0;
  }

  /** registry_test.go's "prefer middle item" case on three registered names. */
  lemma PreferMiddleExample(v1: string, v2: string, v3: string, zero: string)
    ensures var m := map["key1" := v1, "key2" := v2, "key3" := v3];
      PreferenceList(m, ["key1", "key2", "key3"], zero, "key2") == Success([v2, v1, v3])
  {
    var m := map["key1" := v1, "key2" := v2, "key3" := v3];
    var o := ["key1", "key2", "key3"];
    IndexOfUnique(o, "key2", 1);
    assert RemoveAt(o, 1) == ["key1", "key3"];
    assert Lookups(m, zero, ["key1"]) == [v1] by {
      assert ["key1"][..0] == [];
    }
    assert ["key1", "key3"][..1] == ["key1"];
    assert Lookups(m, zero, ["key1", "key3"]) == [v1, v3];
    assert o[1] == "key2" && "key2" in m;
    assert PreferenceList(m, o, zero, "key2") == Success([m["key2"]] + [v1, v3]);
    assert [m["key2"]] + [v1, v3] == [v2, v1, v3];
  }

  /** registry_test.go's "prefer non-existing item" case: the plain List() order. */
  lemma PreferUnknownExample(v1: string, v2: string, v3: string, zero: string)
    ensures var m := map["key1" := v1, "key2" := v2, "key3" := v3];
      PreferenceList(m, ["key1", "key2", "key3"], zero, "key4") == Success([v1, v2, v3])
  {
    var m := map["key1" := v1, "key2" := v2, "key3" := v3];
    var o := ["key1", "key2", "key3"];
    assert "key4" !in o;
    assert IndexOf(o, "key4") == -1;
    ValuesAllPresent(m, o);
    var vs := Values(m, o);
    assert vs[0] == v1 && vs[1] == v2 && vs[2] == v3;
    assert vs == [v1, v2, v3];
  }
}
