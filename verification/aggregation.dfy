/**
 The aggregating `ConfigurationProvider`: an insertion-ordered registry holding at
 most one provider per kind, lookup by kind, and the merge of every registered
 provider's values in registration order.
 */
module Aggregation {
  import opened ConfigTypes
  import opened Providers
  import Merge

  /** The registry, in registration order. A provider's kind is `KindOf` it, as
      the source keys its ordered dictionary by the provider's class. */
  datatype Registry = Registry(providers: seq<Provider>)

  /** A freshly constructed aggregating provider. */
  const Empty: Registry := Registry([])

  /** The registry holds at most one provider of each kind. */
  ghost predicate DistinctKinds(ps: seq<Provider>) {
    forall i, j :: 0 <= i < j < |ps| ==> KindOf(ps[i]) != KindOf(ps[j])
  }

  ghost predicate Valid(reg: Registry) {
    DistinctKinds(reg.providers)
  }

  predicate IsRegistered(reg: Registry, kind: ProviderKind) {
    exists i :: 0 <= i < |reg.providers| && KindOf(reg.providers[i]) == kind
  }

  /** The state after `register_provider`, and whether the call raised. */
  datatype Registration =
    | Registered(registry: Registry)
    | Rejected(registry: Registry, error: Error)

  /** `register_provider`: a second provider of a registered kind is rejected
      and the registry kept as it was; otherwise the provider is appended. */
  function Register(reg: Registry, p: Provider): (r: Registration)
    ensures r.Rejected? <==> IsRegistered(reg, KindOf(p))
    ensures r.Rejected? ==> r.registry == reg && r.error == DuplicateProvider(KindOf(p))
    ensures r.Registered? ==> r.registry.providers == reg.providers + [p]
    ensures Valid(reg) ==> Valid(r.registry)
  {
    if IsRegistered(reg, KindOf(p)) then Rejected(reg, DuplicateProvider(KindOf(p)))
    else Registered(Registry(reg.providers + [p]))
  }

  /** The first provider of `kind` in `ps`. */
  function Lookup(ps: seq<Provider>, kind: ProviderKind): (r: Option<Provider>)
    ensures r.None? <==> forall i :: 0 <= i < |ps| ==> KindOf(ps[i]) != kind
    ensures r.Some? ==> KindOf(r.value) == kind && r.value in ps
    decreases |ps|
  {
    if |ps| == 0 then None
    else if KindOf(ps[0]) == kind then Some(ps[0])
    else Lookup(ps[1..], kind)
  }

  /** `get_provider`: the registered provider of `kind`, or nothing (not an
      error) when no provider of that kind was registered. */
  function GetProvider(reg: Registry, kind: ProviderKind): (r: Option<Provider>)
    ensures r.None? <==> !IsRegistered(reg, kind)
    ensures r.Some? ==> KindOf(r.value) == kind && r.value in reg.providers
  {
    Lookup(reg.providers, kind)
  }

  /** Lookup past a prefix that holds no provider of `kind`. */
  lemma {:induction false} LookupSkipsPrefix(a: seq<Provider>, b: seq<Provider>, kind: ProviderKind)
    requires forall i :: 0 <= i < |a| ==> KindOf(a[i]) != kind
    ensures Lookup(a + b, kind) == Lookup(b, kind)
    decreases |a|
  {
    if |a| > 0 {
      assert (a + b)[0] == a[0];
      assert (a + b)[1..] == a[1..] + b;
      LookupSkipsPrefix(a[1..], b, kind);
    } else {
      assert a + b == b;
    }
  }

  /** Lookup finds the same provider after something is appended, when the
      registry already held that kind. */
  lemma {:induction false} LookupIgnoresSuffix(a: seq<Provider>, b: seq<Provider>, kind: ProviderKind)
    requires Lookup(a, kind).Some?
    ensures Lookup(a + b, kind) == Lookup(a, kind)
    decreases |a|
  {
    if KindOf(a[0]) != kind {
      assert (a + b)[1..] == a[1..] + b;
      LookupIgnoresSuffix(a[1..], b, kind);
    }
  }

  /** A rejected registration changes nothing: the earlier provider of the
      kind is still the one returned by lookup. */
  lemma DuplicateKeepsEarlier(reg: Registry, p: Provider)
    requires IsRegistered(reg, KindOf(p))
    ensures Register(reg, p) == Rejected(reg, DuplicateProvider(KindOf(p)))
    ensures GetProvider(Register(reg, p).registry, KindOf(p)) == GetProvider(reg, KindOf(p))
    ensures GetProvider(reg, KindOf(p)).Some?
  {
  }

  /** A successful registration appends exactly one entry: lookup of the new
      kind returns the new provider, and lookup of every other kind is as
      before. */
  lemma RegisterThenLookup(reg: Registry, p: Provider, kind: ProviderKind)
    requires !IsRegistered(reg, KindOf(p))
    ensures Register(reg, p).Registered?
    ensures GetProvider(Register(reg, p).registry, KindOf(p)) == Some(p)
    ensures kind != KindOf(p) ==> GetProvider(Register(reg, p).registry, kind) == GetProvider(reg, kind)
  {
    var ps := reg.providers;
    LookupSkipsPrefix(ps, [p], KindOf(p));
    if kind != KindOf(p) {
      if Lookup(ps, kind).Some? {
        LookupIgnoresSuffix(ps, [p], kind);
      } else {
        LookupSkipsPrefix(ps, [p], kind);
      }
    }
  }

  /** `get_provider` returns the registered instance itself, for every
      provider of a registry built by registration. */
  lemma GetProviderReturnsRegisteredInstance(reg: Registry, p: Provider)
    requires Valid(reg) && p in reg.providers
    ensures GetProvider(reg, KindOf(p)) == Some(p)
  {
  }

  /** Registering several providers in order, stopping at the first that is
      rejected; the providers registered before it stay registered. */
  function RegisterEach(reg: Registry, ps: seq<Provider>): (r: Registration)
    ensures Valid(reg) ==> Valid(r.registry)
    ensures |reg.providers| <= |r.registry.providers|
    ensures r.registry.providers[..|reg.providers|] == reg.providers
    decreases |ps|
  {
    if |ps| == 0 then Registered(reg)
    else
      match Register(reg, ps[0])
      case Registered(next) => RegisterEach(next, ps[1..])
      case Rejected(same, error) => Rejected(same, error)
  }

  /** Registration sequences of distinct, new kinds all succeed and leave the
      providers in registration order. */
  lemma {:induction false} DistinctRegistrationsSucceed(reg: Registry, ps: seq<Provider>)
    requires DistinctKinds(ps)
    requires forall i :: 0 <= i < |ps| ==> !IsRegistered(reg, KindOf(ps[i]))
    ensures RegisterEach(reg, ps) == Registered(Registry(reg.providers + ps))
    decreases |ps|
  {
    if |ps| > 0 {
      var next := Registry(reg.providers + [ps[0]]);
      DistinctRegistrationsSucceed(next, ps[1..]);
      assert next.providers + ps[1..] == reg.providers + ps;
    }
  }

  /** Registration sequences that repeat a kind are rejected. */
  lemma {:induction false} RepeatedKindIsRejected(reg: Registry, ps: seq<Provider>, i: int, j: int)
    requires 0 <= i < j < |ps| && KindOf(ps[i]) == KindOf(ps[j])
    ensures RegisterEach(reg, ps).Rejected?
    decreases |ps|
  {
    match Register(reg, ps[0])
    case Rejected(_, _) =>
    case Registered(next) =>
      if i == 0 {
        assert next.providers[|reg.providers|] == ps[0];
        RejectedOnceRegistered(next, ps[1..], j - 1);
      } else {
        RepeatedKindIsRejected(next, ps[1..], i - 1, j - 1);
      }
  }

  /** Registering a sequence that contains an already registered kind is rejected. */
  lemma {:induction false} RejectedOnceRegistered(reg: Registry, ps: seq<Provider>, j: int)
    requires 0 <= j < |ps| && IsRegistered(reg, KindOf(ps[j]))
    ensures RegisterEach(reg, ps).Rejected?
    decreases |ps|
  {
    match Register(reg, ps[0])
    case Rejected(_, _) =>
    case Registered(next) =>
      var k :| 0 <= k < |reg.providers| && KindOf(reg.providers[k]) == KindOf(ps[j]);
      assert next.providers[k] == reg.providers[k];
      RejectedOnceRegistered(next, ps[1..], j - 1);
  }

  /** Every provider of `ps` produced values. */
  ghost predicate AllSucceed(ps: seq<Provider>, host: Host) {
    forall i :: 0 <= i < |ps| ==> GetValues(ps[i], host).Success?
  }

  /** The providers' values, in registration order. */
  function Outputs(ps: seq<Provider>, host: Host): (vs: seq<Values>)
    requires AllSucceed(ps, host)
    ensures |vs| == |ps|
    ensures forall i :: 0 <= i < |ps| ==> Success(vs[i]) == GetValues(ps[i], host)
  {
    seq(|ps|, i requires 0 <= i < |ps| && GetValues(ps[i], host).Success? => GetValues(ps[i], host).value)
  }

  /** The fold of `get_values` over `ps`: the first provider that raises aborts
      the whole aggregation; otherwise the values are merged, later ones
      overwriting earlier ones. */
  function Aggregate(ps: seq<Provider>, host: Host): (r: Result<Values>)
    ensures r.Success? <==> AllSucceed(ps, host)
    ensures r.Success? ==> r.value == Merge.MergeAll(Outputs(ps, host))
    decreases |ps|
  {
    if |ps| == 0 then Success(map[])
    else
      var front := ps[..|ps| - 1];
      PrefixSucceeds(ps, host);
      var acc :- Aggregate(front, host);
      var last :- GetValues(ps[|ps| - 1], host);
      OutputsSnoc(ps, host);
      Merge.MergeSnoc(Outputs(front, host), last);
      Success(acc + last)
  }

  /** The providers before the last one succeed when all of them do. */
  lemma PrefixSucceeds(ps: seq<Provider>, host: Host)
    requires |ps| > 0
    ensures AllSucceed(ps, host) ==> AllSucceed(ps[..|ps| - 1], host)
  {
  }

  /** The outputs of all providers are those of the front followed by the last one's. */
  lemma OutputsSnoc(ps: seq<Provider>, host: Host)
    requires |ps| > 0 && AllSucceed(ps, host)
    ensures AllSucceed(ps[..|ps| - 1], host)
    ensures Outputs(ps, host) == Outputs(ps[..|ps| - 1], host) + [GetValues(ps[|ps| - 1], host).value]
  {
  }

  /** No partial result: when the first provider to raise is the one at `i`,
      the whole aggregation raises its error. */
  lemma {:induction false} FirstFailureAborts(ps: seq<Provider>, host: Host, i: int)
    requires 0 <= i < |ps| && AllSucceed(ps[..i], host) && GetValues(ps[i], host).Failure?
    ensures Aggregate(ps, host) == Failure(GetValues(ps[i], host).error)
    decreases |ps|
  {
    var front := ps[..|ps| - 1];
    if i == |ps| - 1 {
      assert front == ps[..i];
    } else {
      assert front[..i] == ps[..i] && front[i] == ps[i];
      FirstFailureAborts(front, host, i);
    }
  }

  /** The aggregating provider's `get_values`. */
  function GetAllValues(reg: Registry, host: Host): (r: Result<Values>)
    ensures |reg.providers| == 0 ==> r == Success(map[])
    ensures r.Success? <==> AllSucceed(reg.providers, host)
    ensures r.Success? ==> r.value == Merge.MergeAll(Outputs(reg.providers, host))
  {
    Aggregate(reg.providers, host)
  }

  /** The aggregated key set is the union of the providers' key sets. */
  lemma AggregatedKeysAreUnion(reg: Registry, host: Host, k: string)
    requires GetAllValues(reg, host).Success?
    ensures k in GetAllValues(reg, host).value <==>
      exists i :: 0 <= i < |reg.providers| && k in GetValues(reg.providers[i], host).value
  {
    var vs := Outputs(reg.providers, host);
    Merge.MergedKeysAreUnion(vs, k);
    if k in GetAllValues(reg, host).value {
      var i :| 0 <= i < |vs| && k in vs[i];
      assert k in GetValues(reg.providers[i], host).value;
    }
  }

  /** Later registrations win: the aggregated value of `k` is the one of the
      last registered provider whose values hold `k`. */
  lemma LastRegisteredWins(reg: Registry, host: Host, i: int, k: string)
    requires GetAllValues(reg, host).Success?
    requires 0 <= i < |reg.providers| && k in GetValues(reg.providers[i], host).value
    requires forall j :: i < j < |reg.providers| ==> k !in GetValues(reg.providers[j], host).value
    ensures k in GetAllValues(reg, host).value
    ensures GetAllValues(reg, host).value[k] == GetValues(reg.providers[i], host).value[k]
  {
    var vs := Outputs(reg.providers, host);
    forall j | i < j < |vs| ensures k !in vs[j] {
      assert k !in GetValues(reg.providers[j], host).value;
    }
    Merge.LaterMapWins(vs, i, k);
  }

  /** Registering one more provider overrides exactly its own keys: a key it
      provides takes its value, every other key is as before. */
  lemma RegisterOverridesOnlyOwnKeys(reg: Registry, p: Provider, host: Host, k: string)
    requires !IsRegistered(reg, KindOf(p))
    requires GetAllValues(reg, host).Success? && GetValues(p, host).Success?
    ensures GetAllValues(Register(reg, p).registry, host).Success?
    ensures k in GetValues(p, host).value ==>
      k in GetAllValues(Register(reg, p).registry, host).value &&
      GetAllValues(Register(reg, p).registry, host).value[k] == GetValues(p, host).value[k]
    ensures k !in GetValues(p, host).value ==>
      (k in GetAllValues(Register(reg, p).registry, host).value <==> k in GetAllValues(reg, host).value)
    ensures k !in GetValues(p, host).value && k in GetAllValues(reg, host).value ==>
      GetAllValues(Register(reg, p).registry, host).value[k] == GetAllValues(reg, host).value[k]
  {
  }

  /** `substitute_config` on the aggregating provider: omitting the values
      behaves exactly like passing the aggregated `get_values()`. */
  function SubstituteConfig<C>(reg: Registry, host: Host, config: C, configValues: Option<Values>,
                               substituteAll: (C, Values) -> Result<C>): (r: Result<C>)
    ensures configValues.Some? ==> r == substituteAll(config, configValues.value)
    ensures configValues.None? && GetAllValues(reg, host).Success? ==>
      r == substituteAll(config, GetAllValues(reg, host).value)
    ensures configValues.None? && GetAllValues(reg, host).Failure? ==>
      r == Failure(GetAllValues(reg, host).error)
  {
    ApplySubstitution(GetAllValues(reg, host), config, configValues, substituteAll)
  }

  /** A runtime environment registered first and the process environment
      registered second: the process environment wins on a shared key. */
  lemma RuntimeThenEnvironment(host: Host)
    requires "X" in host.environ && host.environ["X"] == "envval"
    ensures RegisterEach(Empty, [RuntimeEnvironment(map["X" := "runtime"]), Environment]).Registered?
    ensures GetAllValues(RegisterEach(Empty, [RuntimeEnvironment(map["X" := "runtime"]), Environment]).registry, host)
         == Success(Merge.MergeAll([map["X" := "runtime"], host.environ]))
    ensures GetAllValues(RegisterEach(Empty, [RuntimeEnvironment(map["X" := "runtime"]), Environment]).registry, host).value["X"]
         == "envval"
  {
  }
}
