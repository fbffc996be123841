/** `DIContainer`: a table of factories keyed by the name of the type they produce.

    A type is known by `String(describing:)` of it, so the model keys the table by that name
    directly. Factories are opaque tokens; resolving yields the token of the factory that would be
    called. */
module DependencyInjection {

  datatype Factory =
    | APIServiceFactory       // `APIService()`
    | HomeViewModelFactory    // `HomeViewModel(apiService: resolve(APIServiceProtocol.self))`
    | ProfileViewModelFactory // `ProfileViewModel(apiService: resolve(APIServiceProtocol.self))`
    | OtherFactory(token: nat)

  /** What `resolve` does: hands back what the registered factory makes, or stops the program
      with `fatalError` and its message. */
  datatype Resolution = Resolved(madeBy: Factory) | FatalError(message: string)

  const APIServiceProtocol := "APIServiceProtocol"
  const HomeViewModelProtocol := "HomeViewModelProtocol"
  const ProfileViewModelProtocol := "ProfileViewModelProtocol"

  function MissingFactoryMessage(typeName: string): string {
    "No factory registered for type " + typeName
  }

  class DIContainer {
    var factories: map<string, Factory>

    /** The private `init` of the shared instance: an empty table. */
    constructor ()
      ensures factories == map[]
    {
      factories := map[];
    }

    /** `register(type, factory:)`: stores the factory under the type's name, replacing any
        earlier one for that name; every other entry is kept. */
    method Register(typeName: string, factory: Factory)
      modifies this
      ensures typeName in factories && factories[typeName] == factory
      ensures factories.Keys == old(factories.Keys) + {typeName}
      ensures forall k | k in old(factories) && k != typeName :: factories[k] == old(factories)[k]
    {
      factories := factories[typeName := factory];
    }

    /** `resolve(type)`: the most recently registered factory for the type's name, or a fatal
        error when there is none. The table is not changed. */
    method Resolve(typeName: string) returns (r: Resolution)
      ensures r.Resolved? <==> typeName in factories
      ensures r.Resolved? ==> r.madeBy == factories[typeName]
      ensures r.FatalError? ==> r.message == MissingFactoryMessage(typeName)
    {
      if typeName !in factories {
        return FatalError(MissingFactoryMessage(typeName));
      }
      r := Resolved(factories[typeName]);
    }

    /** `setupDependencies`: registers the service and the two screen controllers. */
    method SetupDependencies()
      modifies this
      ensures factories.Keys
              == old(factories.Keys) + {APIServiceProtocol, HomeViewModelProtocol, ProfileViewModelProtocol}
      ensures factories[APIServiceProtocol] == APIServiceFactory
      ensures factories[HomeViewModelProtocol] == HomeViewModelFactory
      ensures factories[ProfileViewModelProtocol] == ProfileViewModelFactory
      ensures forall k | k in old(factories)
                && k !in {APIServiceProtocol, HomeViewModelProtocol, ProfileViewModelProtocol} ::
                factories[k] == old(factories)[k]
    {
      Register(APIServiceProtocol, APIServiceFactory);
      Register(HomeViewModelProtocol, HomeViewModelFactory);
      Register(ProfileViewModelProtocol, ProfileViewModelFactory);
    }
  }

  /** On a fresh container, setting up the dependencies registers exactly three names, and each
      of them then resolves to its factory. */
  method SetUpContainer() returns (c: DIContainer, api: Resolution, home: Resolution, profile: Resolution)
    ensures fresh(c)
    ensures |c.factories| == 3
    ensures api == Resolved(APIServiceFactory)
    ensures home == Resolved(HomeViewModelFactory)
    ensures profile == Resolved(ProfileViewModelFactory)
  {
    c := new DIContainer();
    c.SetupDependencies();
    api := c.Resolve(APIServiceProtocol);
    home := c.Resolve(HomeViewModelProtocol);
    profile := c.Resolve(ProfileViewModelProtocol);
  }
}
