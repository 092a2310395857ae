/**
 * The module that translates the globally registered dependency list into
 * service-collection registrations: first the container service itself as a
 * singleton, then one registration per dependency whose lifestyle is scoped,
 * singleton or transient.
 */
module DependencyInjection {
  import opened Wrappers

  /** The lifestyle a dependency was registered with; `Unnamed` is any other value of the underlying enumeration. */
  datatype Lifestyle = Scoped | Singleton | Transient | Unnamed(value: int)

  /** A registered dependency: the abstraction type, the implementing type and the lifestyle, by type name. */
  datatype Dependency = Dependency(abstraction: string, implementation: string, lifestyle: Lifestyle)

  datatype ServiceLifetime = SingletonLifetime | ScopedLifetime | TransientLifetime

  /** How a service is produced: by constructing a type, or by a factory producing an instance of a type. */
  datatype Implementation = ImplementationType(typeName: string) | Factory(produces: string)

  /** One entry of the service collection. */
  datatype ServiceDescriptor = ServiceDescriptor(serviceType: string, implementation: Implementation, lifetime: ServiceLifetime)

  /** The container service, registered as a singleton built by a factory from the service provider. */
  const ContainerServiceRegistration := ServiceDescriptor("IContainerService", Factory("ContainerService"), SingletonLifetime)

  /** The registration one dependency yields, if its lifestyle is one of the three handled. */
  function Registration(d: Dependency): (r: Option<ServiceDescriptor>)
    ensures r.Some? <==> !d.lifestyle.Unnamed?
    ensures r.Some? ==> r.value.serviceType == d.abstraction && r.value.implementation == ImplementationType(d.implementation)
    ensures d.lifestyle == Scoped ==> r == Some(ServiceDescriptor(d.abstraction, ImplementationType(d.implementation), ScopedLifetime))
    ensures d.lifestyle == Singleton ==> r == Some(ServiceDescriptor(d.abstraction, ImplementationType(d.implementation), SingletonLifetime))
    ensures d.lifestyle == Transient ==> r == Some(ServiceDescriptor(d.abstraction, ImplementationType(d.implementation), TransientLifetime))
  {
    var lifetime := match d.lifestyle
      case Scoped => Some(ScopedLifetime)
      case Singleton => Some(SingletonLifetime)
      case Transient => Some(TransientLifetime)
      case Unnamed(_) => None;
    match lifetime
    case None => None
    case Some(l) =>
      if d.abstraction != d.implementation then
        Some(ServiceDescriptor(d.abstraction, ImplementationType(d.implementation), l))
      else
        // A self-registration: the implementation serves as its own service type.
        Some(ServiceDescriptor(d.implementation, ImplementationType(d.implementation), l))
  }

  function OptionalEntry(o: Option<ServiceDescriptor>): seq<ServiceDescriptor>
  {
    match o
    case Some(r) => [r]
    case None => []
  }

  /** The registrations a dependency list yields, in the list's order. */
  function Registrations(deps: seq<Dependency>): (rs: seq<ServiceDescriptor>)
    ensures |rs| <= |deps|
  {
    if deps == [] then []
    else Registrations(deps[..|deps| - 1]) + OptionalEntry(Registration(deps[|deps| - 1]))
  }

  lemma {:induction false} RegistrationsAppend(a: seq<Dependency>, b: seq<Dependency>)
    ensures Registrations(a + b) == Registrations(a) + Registrations(b)
    decreases |b|
  {
    if b == [] {
      assert a + b == a;
    } else {
      assert (a + b)[..|a + b| - 1] == a + b[..|b| - 1];
      RegistrationsAppend(a, b[..|b| - 1]);
    }
  }

  /** When every lifestyle is one of the three handled, there is exactly one registration per dependency, index for index. */
  lemma {:induction false} OneRegistrationEach(deps: seq<Dependency>)
    requires forall i :: 0 <= i < |deps| ==> !deps[i].lifestyle.Unnamed?
    ensures |Registrations(deps)| == |deps|
    ensures forall i :: 0 <= i < |deps| ==> Some(Registrations(deps)[i]) == Registration(deps[i])
    decreases |deps|
  {
    if deps != [] {
      var init := deps[..|deps| - 1];
      OneRegistrationEach(init);
    }
  }

  /** Dependencies with a lifestyle outside the three handled add nothing. */
  lemma {:induction false} UnnamedAddNothing(a: seq<Dependency>, d: Dependency, b: seq<Dependency>)
    requires d.lifestyle.Unnamed?
    ensures Registrations(a + [d] + b) == Registrations(a + b)
  {
    assert [d][..0] == [];
    assert Registrations([d]) == [];
    RegistrationsAppend(a, [d]);
    assert Registrations(a + [d]) == Registrations(a);
    RegistrationsAppend(a + [d], b);
    RegistrationsAppend(a, b);
  }

  /** The service collection, an ordered list of descriptors that only grows. */
  class ServiceCollection {
    var descriptors: seq<ServiceDescriptor>

    constructor ()
      ensures descriptors == []
    {
      descriptors := [];
    }

    method Add(d: ServiceDescriptor)
      modifies this
      ensures descriptors == old(descriptors) + [d]
    {
      descriptors := descriptors + [d];
    }
  }

  class DependencyInjectionModule {
    const name: string

    constructor ()
      ensures name == "DependencyInjectionModule"
    {
      name := "DependencyInjectionModule";
    }

    /**
     * `dependencies` is the dependency list of the global container register.
     * What was already in the collection stays, in front.
     */
    method ConfigureServices(services: ServiceCollection, dependencies: seq<Dependency>)
      modifies services
      ensures services.descriptors
        == old(services.descriptors) + [ContainerServiceRegistration] + Registrations(dependencies)
    {
      services.Add(ContainerServiceRegistration);
      ghost var front := services.descriptors;
      for i := 0 to |dependencies|
        invariant services.descriptors == front + Registrations(dependencies[..i])
      {
        var dependency := dependencies[i];
        assert dependencies[..i + 1][..i] == dependencies[..i];
        ghost var before := services.descriptors;
        ghost var expected := OptionalEntry(Registration(dependency));
        assert Registrations(dependencies[..i + 1]) == Registrations(dependencies[..i]) + expected;
        match dependency.lifestyle {
          case Scoped =>
            if dependency.abstraction != dependency.implementation {
              services.Add(ServiceDescriptor(dependency.abstraction, ImplementationType(dependency.implementation), ScopedLifetime));
            } else {
              services.Add(ServiceDescriptor(dependency.implementation, ImplementationType(dependency.implementation), ScopedLifetime));
            }
          case Singleton =>
            if dependency.abstraction != dependency.implementation {
              services.Add(ServiceDescriptor(dependency.abstraction, ImplementationType(dependency.implementation), SingletonLifetime));
            } else {
              services.Add(ServiceDescriptor(dependency.implementation, ImplementationType(dependency.implementation), SingletonLifetime));
            }
          case Transient =>
            if dependency.abstraction != dependency.implementation {
              services.Add(ServiceDescriptor(dependency.abstraction, ImplementationType(dependency.implementation), TransientLifetime));
            } else {
              services.Add(ServiceDescriptor(dependency.implementation, ImplementationType(dependency.implementation), TransientLifetime));
            }
          case Unnamed(_) =>
        }
        assert services.descriptors == before + expected;
        assert before + expected == front + (Registrations(dependencies[..i]) + expected);
      }
      assert dependencies[..|dependencies|] == dependencies;
    }
  }
}
