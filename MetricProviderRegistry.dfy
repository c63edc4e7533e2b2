/** `MetricProviderRegistry`: the service's map from metric id to metric
    provider. Ids compare ignoring case; a provider that is refused, removed
    or still registered at disposal is disposed. */
module MetricProviderRegistry {
  import opened Common

  /** What `IsSupported()` does: answers, or throws. */
  datatype Support = Supports(supported: bool) | SupportThrows

  /** A provider object: its identity, its `MetricId` (null is `None`) and
      its `IsSupported` behaviour. */
  datatype Provider = Provider(handle: nat, metricId: Option<string>, support: Support)

  /** A call that may throw `ObjectDisposedException`. */
  datatype Outcome<T> = Ok(value: T) | ObjectDisposed

  /** One candidate from the factory or a plugin type: a created provider,
      or nothing (the factory threw or returned null, the type is not a
      concrete provider, or its instantiation failed). */
  datatype Creation = Created(provider: Provider) | NotCreated

  /** The registry's state: the providers by folded id, the disposed flag,
      and every provider it has disposed so far. */
  datatype RegistryState = RegistryState(providers: map<string, Provider>, disposed: bool, released: multiset<Provider>)

  const Initial := RegistryState(map[], false, multiset{})

  /** The dictionary key of an id under `StringComparer.OrdinalIgnoreCase`. */
  function Key(id: string): string { ToLower(id) }

  /** A provider `RegisterProvider` keeps unless its id is taken. */
  predicate Admissible(p: Provider)
  {
    !IsNullOrWhiteSpace(p.metricId) && p.support == Supports(true)
  }

  /** Every entry is an admissible provider stored under its own folded id. */
  predicate Valid(s: RegistryState)
  {
    forall k :: k in s.providers ==>
      Admissible(s.providers[k]) && Key(s.providers[k].metricId.value) == k
  }

  // ---------------------------------------------------------------------
  // The operations on the state

  /** `RegisterProvider`'s return value. */
  function RegisterOutcome(s: RegistryState, p: Option<Provider>): Outcome<bool>
  {
    if s.disposed then ObjectDisposed
    else Ok(p.Some? && Admissible(p.value) && Key(p.value.metricId.value) !in s.providers)
  }

  /** The state after `RegisterProvider`: the provider is added, or a
      refused non-null provider is disposed. */
  function AfterRegister(s: RegistryState, p: Option<Provider>): RegistryState
  {
    if s.disposed || p.None? then s
    else if Admissible(p.value) && Key(p.value.metricId.value) !in s.providers then
      s.(providers := s.providers[Key(p.value.metricId.value) := p.value])
    else s.(released := s.released + multiset{p.value})
  }

  /** `UnregisterProvider`'s return value. */
  predicate Unregisters(s: RegistryState, id: Option<string>)
  {
    !IsNullOrWhiteSpace(id) && Key(id.value) in s.providers
  }

  function AfterUnregister(s: RegistryState, id: Option<string>): RegistryState
  {
    if Unregisters(s, id) then
      s.(providers := s.providers - {Key(id.value)}, released := s.released + multiset{s.providers[Key(id.value)]})
    else s
  }

  /** `GetProvider`. */
  function Lookup(s: RegistryState, id: Option<string>): Outcome<Option<Provider>>
  {
    if s.disposed then ObjectDisposed
    else if IsNullOrWhiteSpace(id) || Key(id.value) !in s.providers then Ok(None)
    else Ok(Some(s.providers[Key(id.value)]))
  }

  /** `GetAllProviders`: the registered providers the filter accepts (all
      of them without a filter). */
  function Matching(s: RegistryState, filter: Option<Provider -> bool>): Outcome<set<Provider>>
  {
    if s.disposed then ObjectDisposed
    else Ok(set p | p in s.providers.Values && Accepts(filter, p))
  }

  /** A missing filter accepts every provider. */
  predicate Accepts(filter: Option<Provider -> bool>, p: Provider)
  {
    filter.None? || filter.value(p)
  }

  /** `Dispose`: the first call disposes every provider and empties the map. */
  function AfterDispose(s: RegistryState): RegistryState
  {
    if s.disposed then s
    else RegistryState(map[], true, s.released + multiset(s.providers.Values))
  }

  /** Registering the candidates in order, as the constructor does for the
      factory's providers and then for the plugin types. */
  function RegisterAll(s: RegistryState, cs: seq<Creation>): RegistryState
  {
    if cs == [] then s
    else
      var acc := RegisterAll(s, cs[..|cs| - 1]);
      match cs[|cs| - 1]
      case Created(p) => AfterRegister(acc, Some(p))
      case NotCreated => acc
  }

  // ---------------------------------------------------------------------
  // The registry object

  class Registry {
    var providers: map<string, Provider>
    var disposed: bool
    var released: multiset<Provider>

    function State(): RegistryState
      reads this
    {
      RegistryState(providers, disposed, released)
    }

    /** Registers the factory's providers, then the plugin providers. */
    constructor(builtIns: seq<Creation>, plugins: seq<Creation>)
      ensures State() == RegisterAll(RegisterAll(Initial, builtIns), plugins)
    {
      providers := map[];
      disposed := false;
      released := multiset{};
      new;
      RegisterCandidates(builtIns);
      RegisterCandidates(plugins);
    }

    /** `provider.Dispose()`. */
    method Release(p: Provider)
      modifies this
      ensures State() == old(State()).(released := old(released) + multiset{p})
    {
      released := released + multiset{p};
    }

    method RegisterProvider(provider: Option<Provider>) returns (r: Outcome<bool>)
      modifies this
      ensures r == RegisterOutcome(old(State()), provider)
      ensures State() == AfterRegister(old(State()), provider)
    {
      if disposed {
        return ObjectDisposed;
      }
      if provider.None? {
        return Ok(false);
      }
      var p := provider.value;
      if IsNullOrWhiteSpace(p.metricId) {
        Release(p);
        return Ok(false);
      }
      if p.support.SupportThrows? || !p.support.supported {
        Release(p);
        return Ok(false);
      }
      var key := Key(p.metricId.value);
      if key in providers {
        Release(p);
        return Ok(false);
      }
      providers := providers[key := p];
      return Ok(true);
    }

    method UnregisterProvider(metricId: Option<string>) returns (removed: bool)
      modifies this
      ensures removed == Unregisters(old(State()), metricId)
      ensures State() == AfterUnregister(old(State()), metricId)
    {
      if IsNullOrWhiteSpace(metricId) {
        return false;
      }
      var key := Key(metricId.value);
      if key in providers {
        var p := providers[key];
        providers := providers - {key};
        Release(p);
        return true;
      }
      return false;
    }

    method GetProvider(metricId: Option<string>) returns (r: Outcome<Option<Provider>>)
      ensures r == Lookup(State(), metricId)
    {
      if disposed {
        return ObjectDisposed;
      }
      if IsNullOrWhiteSpace(metricId) {
        return Ok(None);
      }
      var key := Key(metricId.value);
      if key in providers {
        return Ok(Some(providers[key]));
      }
      return Ok(None);
    }

    method GetAllProviders(filter: Option<Provider -> bool>) returns (r: Outcome<set<Provider>>)
      ensures r == Matching(State(), filter)
    {
      if disposed {
        return ObjectDisposed;
      }
      if filter.None? {
        assert providers.Values == set p | p in providers.Values && Accepts(filter, p);
        return Ok(providers.Values);
      }
      var accepts := filter.value;
      var matching := set p | p in providers.Values && accepts(p);
      assert matching == set p | p in providers.Values && Accepts(filter, p);
      return Ok(matching);
    }

    method Dispose()
      modifies this
      ensures State() == AfterDispose(old(State()))
    {
      if disposed {
        return;
      }
      disposed := true;
      var snapshot := providers.Values;
      providers := map[];
      released := released + multiset(snapshot);
    }

    /** The loops of `RegisterBuiltInProviders` and `LoadFromAssembly`. */
    method RegisterCandidates(cs: seq<Creation>)
      modifies this
      ensures State() == RegisterAll(old(State()), cs)
    {
      ghost var start := State();
      for i := 0 to |cs|
        invariant State() == RegisterAll(start, cs[..i])
      {
        PrefixOfPrefix(cs, i);
        if cs[i].Created? {
          var _ := RegisterProvider(Some(cs[i].provider));
        }
      }
      assert cs[..|cs|] == cs;
    }
  }

  // ---------------------------------------------------------------------
  // Properties

  /** Folding case keeps whether an id is blank. */
  lemma BlankIgnoresCase(a: string)
    ensures IsBlank(Key(a)) <==> IsBlank(a)
  {
    if !IsBlank(a) {
      var i :| 0 <= i < |a| && !IsWhiteSpace(a[i]);
      assert !IsWhiteSpace(Key(a)[i]);
    }
  }

  /** Registration succeeds exactly for a live registry, a non-null
      admissible provider and a free id; the provider is then found under
      every spelling of its id. */
  lemma RegisterIff(s: RegistryState, p: Option<Provider>, other: string)
    ensures RegisterOutcome(s, p) == Ok(true) <==>
      !s.disposed && p.Some? && Admissible(p.value) && Key(p.value.metricId.value) !in s.providers
    ensures RegisterOutcome(s, p) == Ok(true) && EqualsIgnoreCase(other, p.value.metricId.value) ==>
      Lookup(AfterRegister(s, p), Some(other)) == Ok(Some(p.value))
  {
    if RegisterOutcome(s, p) == Ok(true) && EqualsIgnoreCase(other, p.value.metricId.value) {
      BlankIgnoresCase(other);
      BlankIgnoresCase(p.value.metricId.value);
    }
  }

  /** A refused non-null provider is disposed and the map is unchanged; a
      null provider changes nothing. */
  lemma RefusedIsReleased(s: RegistryState, p: Option<Provider>)
    requires RegisterOutcome(s, p) == Ok(false)
    ensures p.None? ==> AfterRegister(s, p) == s
    ensures p.Some? ==> AfterRegister(s, p) == s.(released := s.released + multiset{p.value})
  {
  }

  /** The first registration of an id wins. */
  lemma FirstWins(s: RegistryState, p: Provider)
    requires p.metricId.Some? && Key(p.metricId.value) in s.providers
    ensures AfterRegister(s, Some(p)).providers == s.providers
    ensures Lookup(AfterRegister(s, Some(p)), p.metricId) == Lookup(s, p.metricId)
  {
  }

  /** Lookup ignores case, and a blank id finds nothing. */
  lemma LookupIgnoresCase(s: RegistryState, a: string, b: string)
    requires EqualsIgnoreCase(a, b)
    ensures Lookup(s, Some(a)) == Lookup(s, Some(b))
    ensures !s.disposed && IsBlank(a) ==> Lookup(s, Some(a)) == Ok(None)
  {
    BlankIgnoresCase(a);
    BlankIgnoresCase(b);
  }

  /** Unregistering reports whether the id was present; the provider is
      then gone and disposed. */
  lemma UnregisterIff(s: RegistryState, id: string)
    requires !s.disposed
    ensures Unregisters(s, Some(id)) <==> !IsBlank(id) && Lookup(s, Some(id)).value.Some?
    ensures Unregisters(s, Some(id)) ==>
      Lookup(AfterUnregister(s, Some(id)), Some(id)) == Ok(None)
      && AfterUnregister(s, Some(id)).released == s.released + multiset{Lookup(s, Some(id)).value.value}
  {
  }

  /** A newly registered provider is listed, and by a filter iff the filter
      accepts it. */
  lemma RegisteredIsListed(s: RegistryState, p: Provider, f: Provider -> bool)
    requires RegisterOutcome(s, Some(p)) == Ok(true)
    ensures p in Matching(AfterRegister(s, Some(p)), None).value
    ensures p in Matching(AfterRegister(s, Some(p)), Some(f)).value <==> f(p)
  {
    var t := AfterRegister(s, Some(p));
    assert t.providers[Key(p.metricId.value)] == p;
  }

  /** `Dispose` is idempotent, disposes every registered provider, empties
      the map, and makes the reading and registering calls throw. */
  lemma DisposeFinal(s: RegistryState, id: Option<string>, p: Option<Provider>, f: Option<Provider -> bool>)
    ensures AfterDispose(AfterDispose(s)) == AfterDispose(s)
    ensures AfterDispose(s).providers == map[] || s.disposed
    ensures !s.disposed ==> forall k :: k in s.providers ==> s.providers[k] in AfterDispose(s).released
    ensures Lookup(AfterDispose(s), id) == ObjectDisposed
    ensures Matching(AfterDispose(s), f) == ObjectDisposed
    ensures RegisterOutcome(AfterDispose(s), p) == ObjectDisposed
    ensures AfterRegister(AfterDispose(s), p) == AfterDispose(s)
  {
    if !s.disposed {
      forall k | k in s.providers
        ensures s.providers[k] in AfterDispose(s).released
      {
        assert s.providers[k] in s.providers.Values;
      }
    }
  }

  /** Every operation keeps the map well-formed. */
  lemma OperationsKeepValid(s: RegistryState, p: Option<Provider>, id: Option<string>)
    requires Valid(s)
    ensures Valid(AfterRegister(s, p))
    ensures Valid(AfterUnregister(s, id))
    ensures Valid(AfterDispose(s))
  {
  }

  /** Construction yields a well-formed map, and disposal is never undone. */
  lemma {:induction false} RegisterAllKeepsValid(s: RegistryState, cs: seq<Creation>)
    requires Valid(s)
    ensures Valid(RegisterAll(s, cs))
    ensures s.released <= RegisterAll(s, cs).released
    ensures RegisterAll(s, cs).disposed == s.disposed
  {
    if cs != [] {
      RegisterAllKeepsValid(s, cs[..|cs| - 1]);
      var acc := RegisterAll(s, cs[..|cs| - 1]);
      if cs[|cs| - 1].Created? {
        OperationsKeepValid(acc, Some(cs[|cs| - 1].provider), None);
      }
    }
  }
}
