/** Services/Tr1ppy.Services.Integration.DependencyInjection/ServiceCollectionExtensions.cs:
    registering the `[AutoregisteredService]` classes of some assemblies into a
    service collection, once per process, and checking that the
    `[MustManuallyRegisterService]` classes were registered by hand. An
    assembly is the sequence of types `GetTypes()` returns. */
module ServiceCollectionExtensions {
  import opened Wrappers
  import opened TypeUniverse
  import OnPlatform
  import ServiceAttributeResolver
  import ServiceLifetimeMapper

  /** A `ServiceDescriptor` as these builders create it. */
  datatype ServiceDescriptor = ServiceDescriptor(
    serviceType: TypeId,
    implementationType: TypeId,
    serviceKey: Option<ServiceKey>,
    lifetime: ServiceLifetimeMapper.DiLifetime)

  /** The message of a parameterless `InvalidOperationException`. */
  const InvalidOperationMessage := "Operation is not valid due to the current state of the object."

  predicate AllKnown(u: Universe, assemblies: seq<seq<TypeId>>) {
    forall i, j :: 0 <= i < |assemblies| && 0 <= j < |assemblies[i]| ==> assemblies[i][j] in u.types
  }

  /** `assemblies.SelectMany(a => a.GetTypes())`. */
  function AssemblyTypes(assemblies: seq<seq<TypeId>>): seq<TypeId>
  {
    if assemblies == [] then [] else AssemblyTypes(assemblies[..|assemblies| - 1]) + assemblies[|assemblies| - 1]
  }

  lemma {:induction false} AssemblyTypesKnown(u: Universe, assemblies: seq<seq<TypeId>>)
    requires AllKnown(u, assemblies)
    ensures AllIn(AssemblyTypes(assemblies), u.types)
  {
    if assemblies != [] {
      AssemblyTypesKnown(u, assemblies[..|assemblies| - 1]);
    }
  }

  /** The types among `types` that `keep` selects, in order. */
  function Select(u: Universe, types: seq<TypeId>, keep: TypeInfo -> bool): (r: seq<TypeId>)
    requires AllIn(types, u.types)
    ensures AllIn(r, u.types)
    ensures forall t :: t in r <==> t in types && keep(u.types[t])
  {
    if types == [] then []
    else
      var last := types[|types| - 1];
      Select(u, types[..|types| - 1], keep) + (if keep(u.types[last]) then [last] else [])
  }

  /** Non-abstract classes carrying `[AutoregisteredService]`. */
  predicate Autoregistered(info: TypeInfo) {
    info.isClass && !info.isAbstract && info.attributes.autoregistered.Some?
  }

  /** Non-abstract classes carrying `[MustManuallyRegisterService]`. */
  predicate MustBeManual(info: TypeInfo) {
    info.isClass && !info.isAbstract && info.attributes.mustManuallyRegister
  }

  /** `RegisterServiceWithoutInterfaces`: the type registered as itself. */
  function DescriptorWithoutInterfaces(u: Universe, serviceType: TypeId, lifetime: int)
    : (r: Outcome<ServiceDescriptor>)
    requires serviceType in u.types
    ensures r.Ok? <==> ServiceLifetimeMapper.Map(lifetime).Ok?
    ensures r.Ok? ==> (r.value.serviceType == serviceType && r.value.implementationType == serviceType
      && r.value.serviceKey == u.types[serviceType].attributes.keyed
      && Ok(r.value.lifetime) == ServiceLifetimeMapper.Map(lifetime))
  {
    var mapped := ServiceLifetimeMapper.Map(lifetime);
    if mapped.Throw? then Throw(mapped.exception)
    else Ok(ServiceDescriptor(serviceType, serviceType, u.types[serviceType].attributes.keyed, mapped.value))
  }

  /** `RegisterServiceWithOneInterface`: the type registered under its interface. */
  function DescriptorWithOneInterface(u: Universe, serviceType: TypeId, interfaceType: TypeId, lifetime: int)
    : (r: Outcome<ServiceDescriptor>)
    requires serviceType in u.types
    ensures r.Ok? <==> ServiceLifetimeMapper.Map(lifetime).Ok?
    ensures r.Ok? ==> (r.value.serviceType == interfaceType && r.value.implementationType == serviceType
      && r.value.serviceKey == u.types[serviceType].attributes.keyed
      && Ok(r.value.lifetime) == ServiceLifetimeMapper.Map(lifetime))
  {
    var mapped := ServiceLifetimeMapper.Map(lifetime);
    if mapped.Throw? then Throw(mapped.exception)
    else Ok(ServiceDescriptor(interfaceType, serviceType, u.types[serviceType].attributes.keyed, mapped.value))
  }

  /** The collection's descriptors and the process-wide `RegisteredServices` set. */
  datatype Registration = Registration(descriptors: seq<ServiceDescriptor>, registered: set<TypeId>)

  /** A run of the loop: the state it left, and the exception that ended it, if any. */
  datatype RegisterRun = RegisterRun(state: Registration, failure: Option<ExceptionKind>)

  /** Whether the loop skips a type for its platform: only a type carrying
      `[OnPlatform]` is ever skipped, and on Windows every such type is
      skipped unless its flags are `All`. */
  predicate Unsupported(u: Universe, t: TypeId, running: OnPlatform.OSPlatform)
    requires t in u.types
    ensures Unsupported(u, t, running) ==> u.types[t].attributes.onPlatform.Some?
    ensures running == OnPlatform.Windows && u.types[t].attributes.onPlatform.Some? ==>
      (Unsupported(u, t, running) <==> u.types[t].attributes.onPlatform.value != OnPlatform.AllFlags)
  {
    ServiceAttributeResolver.HavePlatfromAttributeAndNotSupportedOnCurrent(u, t, running)
  }

  /** One iteration of the `AddAttributedServices` loop. */
  function RegisterOne(u: Universe, running: OnPlatform.OSPlatform, st: Registration, t: TypeId): RegisterRun
    requires t in u.types && u.types[t].attributes.autoregistered.Some?
  {
    var info := u.types[t];
    if Unsupported(u, t, running) || t in st.registered then RegisterRun(st, None)
    else if |info.interfaces| > 1 then RegisterRun(Registration(st.descriptors, st.registered + {t}), None)
    else
      var lifetime := info.attributes.autoregistered.value;
      var descriptor :=
        if |info.interfaces| == 0 then DescriptorWithoutInterfaces(u, t, lifetime)
        else DescriptorWithOneInterface(u, t, info.interfaces[0], lifetime);
      if descriptor.Throw? then RegisterRun(st, Some(descriptor.exception))
      else RegisterRun(Registration(st.descriptors + [descriptor.value], st.registered + {t}), None)
  }

  predicate AllAutoregistered(u: Universe, types: seq<TypeId>) {
    forall i :: 0 <= i < |types| ==> types[i] in u.types && u.types[types[i]].attributes.autoregistered.Some?
  }

  /** The loop over the candidate types, stopping at the first exception. */
  function RegisterAll(u: Universe, running: OnPlatform.OSPlatform, st: Registration, types: seq<TypeId>): RegisterRun
    requires AllAutoregistered(u, types)
  {
    if types == [] then RegisterRun(st, None)
    else
      var before := RegisterAll(u, running, st, types[..|types| - 1]);
      if before.failure.Some? then before
      else RegisterOne(u, running, before.state, types[|types| - 1])
  }

  /** One iteration's effect: an unsupported or already registered type
      changes nothing; a type with no interface adds itself as its own
      service, with one interface adds that interface as its service, with
      more adds nothing; in those three cases it is recorded, unless the
      lifetime does not map, which throws and changes nothing. */
  lemma RegisterOneEffect(u: Universe, running: OnPlatform.OSPlatform, st: Registration, t: TypeId)
    requires t in u.types && u.types[t].attributes.autoregistered.Some?
    ensures var run := RegisterOne(u, running, st, t);
      var info := u.types[t];
      var lifetime := ServiceLifetimeMapper.Map(info.attributes.autoregistered.value);
      && (Unsupported(u, t, running) || t in st.registered ==> run == RegisterRun(st, None))
      && (!Unsupported(u, t, running) && t !in st.registered ==>
           && (|info.interfaces| > 1 ==> run == RegisterRun(Registration(st.descriptors, st.registered + {t}), None))
           && (|info.interfaces| <= 1 && lifetime.Throw? ==> run == RegisterRun(st, Some(SwitchExpression)))
           && (|info.interfaces| <= 1 && lifetime.Ok? ==>
                && run.failure.None?
                && run.state.registered == st.registered + {t}
                && run.state.descriptors == st.descriptors + [ServiceDescriptor(
                     if |info.interfaces| == 0 then t else info.interfaces[0], t,
                     info.attributes.keyed, lifetime.value)]))
  {
  }

  /** One iteration only adds: the old descriptors stay in front, at most the
      visited type is newly recorded, and after a run without an exception it
      is recorded unless it is unsupported. */
  lemma RegisterOneGrows(u: Universe, running: OnPlatform.OSPlatform, st: Registration, t: TypeId)
    requires t in u.types && u.types[t].attributes.autoregistered.Some?
    ensures var run := RegisterOne(u, running, st, t);
      && (run.failure.None? ==> Unsupported(u, t, running) || t in run.state.registered)
      && st.registered <= run.state.registered
      && run.state.registered - st.registered <= {t}
      && (t in run.state.registered - st.registered ==> !Unsupported(u, t, running))
      && |st.descriptors| <= |run.state.descriptors|
      && run.state.descriptors[..|st.descriptors|] == st.descriptors
  {
    var run := RegisterOne(u, running, st, t);
    assert run.state.descriptors[..|st.descriptors|] == st.descriptors;
  }

  /** A run only adds: the old descriptors stay in place, in front, and a
      type is newly recorded only if it is a supported candidate. */
  lemma {:induction false} RegisterAllGrows(u: Universe, running: OnPlatform.OSPlatform, st: Registration, types: seq<TypeId>)
    requires AllAutoregistered(u, types)
    ensures var run := RegisterAll(u, running, st, types);
      && st.registered <= run.state.registered
      && (forall t :: t in run.state.registered - st.registered ==>
            t in types && t in u.types && !Unsupported(u, t, running))
      && |st.descriptors| <= |run.state.descriptors|
      && run.state.descriptors[..|st.descriptors|] == st.descriptors
  {
    if types != [] {
      var init := types[..|types| - 1];
      RegisterAllGrows(u, running, st, init);
      var before := RegisterAll(u, running, st, init);
      if before.failure.None? {
        var last := types[|types| - 1];
        assert types == init + [last];
        RegisterOneGrows(u, running, before.state, last);
        var run := RegisterOne(u, running, before.state, last);
        forall t | t in run.state.registered - st.registered
          ensures t in types && t in u.types && !Unsupported(u, t, running)
        {
          if t !in before.state.registered {
            assert t == last;
          }
        }
        var n := |st.descriptors|;
        assert run.state.descriptors[..n] == before.state.descriptors[..n];
      }
    }
  }

  /** After a run without an exception, every candidate is recorded or
      unsupported. */
  lemma {:induction false} RegisterAllCovers(u: Universe, running: OnPlatform.OSPlatform, st: Registration, types: seq<TypeId>)
    requires AllAutoregistered(u, types)
    ensures var run := RegisterAll(u, running, st, types);
      run.failure.None? ==> forall i :: 0 <= i < |types| ==>
        Unsupported(u, types[i], running) || types[i] in run.state.registered
  {
    if types != [] {
      var init := types[..|types| - 1];
      RegisterAllCovers(u, running, st, init);
      var before := RegisterAll(u, running, st, init);
      if before.failure.None? {
        var last := types[|types| - 1];
        RegisterOneGrows(u, running, before.state, last);
        var run := RegisterOne(u, running, before.state, last);
        if run.failure.None? {
          forall i | 0 <= i < |types|
            ensures Unsupported(u, types[i], running) || types[i] in run.state.registered
          {
            if i < |init| {
              assert types[i] == init[i];
            }
          }
        }
      }
    }
  }

  /** With every candidate already recorded or unsupported, the loop changes nothing. */
  lemma {:induction false} RegisterAllSettled(u: Universe, running: OnPlatform.OSPlatform, st: Registration, types: seq<TypeId>)
    requires AllAutoregistered(u, types)
    requires forall i :: 0 <= i < |types| ==> Unsupported(u, types[i], running) || types[i] in st.registered
    ensures RegisterAll(u, running, st, types) == RegisterRun(st, None)
  {
    if types != [] {
      RegisterAllSettled(u, running, st, types[..|types| - 1]);
    }
  }

  /** Calling `AddAttributedServices` again with the same assemblies on the
      same platform adds no descriptor and records nothing new. */
  lemma RepeatedRegistrationAddsNothing(u: Universe, running: OnPlatform.OSPlatform, st: Registration, types: seq<TypeId>)
    requires AllAutoregistered(u, types)
    requires RegisterAll(u, running, st, types).failure.None?
    ensures var once := RegisterAll(u, running, st, types).state;
      RegisterAll(u, running, once, types) == RegisterRun(once, None)
  {
    RegisterAllCovers(u, running, st, types);
    RegisterAllSettled(u, running, RegisterAll(u, running, st, types).state, types);
  }

  /** The candidate types of `AddAttributedServices`. */
  function Candidates(u: Universe, assemblies: seq<seq<TypeId>>): (r: seq<TypeId>)
    requires AllKnown(u, assemblies)
    ensures AllAutoregistered(u, r)
  {
    AssemblyTypesKnown(u, assemblies);
    var r := Select(u, AssemblyTypes(assemblies), Autoregistered);
    assert forall i :: 0 <= i < |r| ==> r[i] in r;
    r
  }

  /** An `IServiceCollection`: the list of descriptors. */
  class ServiceCollection {
    var descriptors: seq<ServiceDescriptor>

    constructor ()
      ensures descriptors == []
    {
      descriptors := [];
    }
  }

  /** The static state of `ServiceCollectionExtensions`: `RegisteredServices`. */
  class AttributedServices {
    var registeredServices: set<TypeId>

    constructor ()
      ensures registeredServices == {}
    {
      registeredServices := {};
    }

    /** `AddAttributedServices`, on the running platform; a lifetime outside
        the enum throws out of the loop, leaving what was added so far. */
    method AddAttributedServices(services: ServiceCollection, u: Universe, running: OnPlatform.OSPlatform,
                                 assemblies: seq<seq<TypeId>>)
      returns (r: Outcome<ServiceCollection>)
      requires AllKnown(u, assemblies)
      modifies this, services
      ensures var run := RegisterAll(u, running, Registration(old(services.descriptors), old(registeredServices)),
                                     Candidates(u, assemblies));
        && services.descriptors == run.state.descriptors
        && registeredServices == run.state.registered
        && r == if run.failure.Some? then Throw(run.failure.value) else Ok(services)
    {
      var candidates := Candidates(u, assemblies);
      ghost var st0 := Registration(services.descriptors, registeredServices);
      for i := 0 to |candidates|
        invariant AllAutoregistered(u, candidates[..i])
        invariant RegisterAll(u, running, st0, candidates[..i]) ==
          RegisterRun(Registration(services.descriptors, registeredServices), None)
      {
        RegisterAllSnoc(u, running, st0, candidates, i);
        var failure := RegisterType(services, u, running, candidates[i]);
        if failure.Some? {
          RegisterAllStops(u, running, st0, candidates, i + 1);
          return Throw(failure.value);
        }
      }
      assert candidates[..|candidates|] == candidates;
      r := Ok(services);
    }

    /** The body of the loop for one candidate type. */
    method RegisterType(services: ServiceCollection, u: Universe, running: OnPlatform.OSPlatform, t: TypeId)
      returns (failure: Option<ExceptionKind>)
      requires t in u.types && u.types[t].attributes.autoregistered.Some?
      modifies this, services
      ensures RegisterOne(u, running, Registration(old(services.descriptors), old(registeredServices)), t) ==
        RegisterRun(Registration(services.descriptors, registeredServices), failure)
    {
      var info := u.types[t];
      if ServiceAttributeResolver.HavePlatfromAttributeAndNotSupportedOnCurrent(u, t, running) {
        return None;
      }
      if t in registeredServices {
        return None;
      }
      var lifetime := info.attributes.autoregistered.value;
      if |info.interfaces| == 0 {
        var d := DescriptorWithoutInterfaces(u, t, lifetime);
        if d.Throw? {
          return Some(d.exception);
        }
        services.descriptors := services.descriptors + [d.value];
      } else if |info.interfaces| == 1 {
        var d := DescriptorWithOneInterface(u, t, info.interfaces[0], lifetime);
        if d.Throw? {
          return Some(d.exception);
        }
        services.descriptors := services.descriptors + [d.value];
      }
      registeredServices := registeredServices + {t};
      failure := None;
    }
  }

  /** The loop over one more candidate: the run so far, then one iteration
      unless it already threw. */
  lemma RegisterAllSnoc(u: Universe, running: OnPlatform.OSPlatform, st: Registration, types: seq<TypeId>, i: nat)
    requires AllAutoregistered(u, types) && i < |types|
    ensures AllAutoregistered(u, types[..i]) && AllAutoregistered(u, types[..i + 1])
    ensures var before := RegisterAll(u, running, st, types[..i]);
      RegisterAll(u, running, st, types[..i + 1]) ==
        if before.failure.Some? then before else RegisterOne(u, running, before.state, types[i])
  {
    assert types[..i + 1][..i] == types[..i];
  }

  /** Once the loop has thrown, the remaining types change nothing. */
  lemma {:induction false} RegisterAllStops(u: Universe, running: OnPlatform.OSPlatform, st: Registration,
                                            types: seq<TypeId>, n: nat)
    requires AllAutoregistered(u, types) && n <= |types|
    requires RegisterAll(u, running, st, types[..n]).failure.Some?
    ensures RegisterAll(u, running, st, types) == RegisterAll(u, running, st, types[..n])
    decreases |types| - n
  {
    if n < |types| {
      assert types[..n + 1][..n] == types[..n];
      RegisterAllStops(u, running, st, types, n + 1);
    } else {
      assert types[..n] == types;
    }
  }

  /** The message of the exception `ServiceDescriptor.ImplementationType`
      throws for a keyed descriptor. */
  const KeyedDescriptorMessage := "This service descriptor is keyed. Your service provider may not support keyed services."

  /** `services.Any(service => service.ImplementationType == t)`: the
      descriptors are read in order, and reading `ImplementationType` of a
      keyed one throws, so the answer is true exactly when a descriptor
      implemented by `t` comes before any keyed descriptor, false exactly
      when no descriptor is keyed or implemented by `t`, and otherwise the
      read throws. */
  function AnyImplementedBy(ds: seq<ServiceDescriptor>, t: TypeId): (r: Outcome<bool>)
    ensures r.Throw? ==> r.exception == InvalidOperation(KeyedDescriptorMessage)
    ensures r == Ok(true) <==>
      exists k :: 0 <= k < |ds| && ds[k].implementationType == t && forall j :: 0 <= j <= k ==> ds[j].serviceKey.None?
    ensures r == Ok(false) <==>
      forall k :: 0 <= k < |ds| ==> ds[k].serviceKey.None? && ds[k].implementationType != t
    decreases |ds|
  {
    if ds == [] then Ok(false)
    else if ds[0].serviceKey.Some? then Throw(InvalidOperation(KeyedDescriptorMessage))
    else if ds[0].implementationType == t then Ok(true)
    else
      assert forall k :: 1 <= k < |ds| ==> ds[k] == ds[1..][k - 1];
      AnyImplementedBy(ds[1..], t)
  }

  /** The `[MustManuallyRegisterService]` classes of the assemblies, in order. */
  function ManualTypes(u: Universe, assemblies: seq<seq<TypeId>>): (r: seq<TypeId>)
    requires AllKnown(u, assemblies)
    ensures AllIn(r, u.types)
    ensures forall t :: t in r <==> t in AssemblyTypes(assemblies) && t in u.types && MustBeManual(u.types[t])
  {
    AssemblyTypesKnown(u, assemblies);
    Select(u, AssemblyTypes(assemblies), MustBeManual)
  }

  /** `CheckoutMannualyRegisterServies`: the classes that must be registered
      by hand are checked in order; the first one for which the `Any` scan
      throws (a keyed descriptor) or finds no descriptor implemented by it
      ends the check with an `InvalidOperationException`, and otherwise the
      collection comes back unchanged. Without keyed descriptors it throws
      exactly when some such class has no descriptor implemented by it. */
  method CheckoutMannualyRegisterServies(services: ServiceCollection, u: Universe, assemblies: seq<seq<TypeId>>)
    returns (r: Outcome<ServiceCollection>)
    requires AllKnown(u, assemblies)
    ensures var manual := ManualTypes(u, assemblies);
      r.Ok? <==> forall j :: 0 <= j < |manual| ==> AnyImplementedBy(services.descriptors, manual[j]) == Ok(true)
    ensures r.Ok? ==> r.value == services
    ensures r.Throw? ==> var manual := ManualTypes(u, assemblies);
      exists i :: 0 <= i < |manual|
        && (forall j :: 0 <= j < i ==> AnyImplementedBy(services.descriptors, manual[j]) == Ok(true))
        && AnyImplementedBy(services.descriptors, manual[i]) != Ok(true)
        && r == if AnyImplementedBy(services.descriptors, manual[i]).Throw?
                then Throw(InvalidOperation(KeyedDescriptorMessage))
                else Throw(InvalidOperation(InvalidOperationMessage))
    ensures (forall k :: 0 <= k < |services.descriptors| ==> services.descriptors[k].serviceKey.None?) ==>
      (r.Throw? <==> exists t :: (t in AssemblyTypes(assemblies) && t in u.types && MustBeManual(u.types[t])
        && forall k :: 0 <= k < |services.descriptors| ==> services.descriptors[k].implementationType != t))
  {
    var manual := ManualTypes(u, assemblies);
    for i := 0 to |manual|
      invariant forall j :: 0 <= j < i ==> AnyImplementedBy(services.descriptors, manual[j]) == Ok(true)
    {
      var found := AnyImplementedBy(services.descriptors, manual[i]);
      if found.Throw? {
        return Throw(found.exception);
      }
      if !found.value {
        assert manual[i] in manual;
        return Throw(InvalidOperation(InvalidOperationMessage));
      }
    }
    assert forall t :: t in manual ==> exists j :: 0 <= j < |manual| && manual[j] == t;
    r := Ok(services);
  }
}
