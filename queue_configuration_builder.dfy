/** Queries/Tr1ppy.Querries.Integration/QueueConfigurationBuilder.cs: a fluent
    builder whose every method changes one field of the configuration it owns
    and returns itself. */
module QueueConfigurationBuilders {
  import opened Wrappers
  import opened TypeUniverse
  import opened HashSets
  import opened InheritedTypes
  import opened QueryConfigurations

  /** One call the `configure` delegate of `ConfigureTypes` makes on the
      builder it is given. */
  datatype TypeCommand = Include(t: TypeId) | Exclude(t: TypeId)

  /** The types a list of commands includes, and those it excludes. */
  function IncludedBy(commands: seq<TypeCommand>): (r: set<TypeId>)
    ensures forall t :: t in r <==> Include(t) in commands
  {
    if commands == [] then {}
    else IncludedBy(commands[..|commands| - 1])
         + (match commands[|commands| - 1] case Include(t) => {t} case Exclude(_) => {})
  }

  function ExcludedBy(commands: seq<TypeCommand>): (r: set<TypeId>)
    ensures forall t :: t in r <==> Exclude(t) in commands
  {
    if commands == [] then {}
    else ExcludedBy(commands[..|commands| - 1])
         + (match commands[|commands| - 1] case Exclude(t) => {t} case Include(_) => {})
  }

  class QueueConfigurationBuilder {
    const configuration: QueryConfiguration

    constructor (name: string)
      ensures fresh(configuration)
      ensures configuration.name == name && configuration.capacity == None
      ensures configuration.typesConfiguration == null
      ensures configuration.itemsProviders == []
      ensures configuration.itemsProcessingFunction == None && configuration.itemsProcessor == None
      ensures configuration.itemsPreProcessingActions == [] && configuration.itemsPreProcessors == []
      ensures configuration.itemsPostProcessingActions == [] && configuration.itemsPostProcessors == []
    {
      configuration := new QueryConfiguration(name);
    }

    /** The last call wins. */
    method WithCapacity(capacity: int) returns (self: QueueConfigurationBuilder)
      modifies configuration`capacity
      ensures self == this && configuration.capacity == Some(capacity)
    {
      configuration.capacity := Some(capacity);
      self := this;
    }

    method AddProvider(provider: Handle) returns (self: QueueConfigurationBuilder)
      modifies configuration`itemsProviders
      ensures self == this
      ensures configuration.itemsProviders == Add(old(configuration.itemsProviders), provider)
    {
      configuration.itemsProviders := Add(configuration.itemsProviders, provider);
      self := this;
    }

    /** `SetProcessing(Func<...>)`: throws through the configuration's setter
        when a processor object is already set, changing nothing. */
    method SetProcessingFunction(f: Handle) returns (self: QueueConfigurationBuilder, r: Outcome<()>)
      modifies configuration`itemsProcessingFunction
      ensures self == this
      ensures r.Throw? <==> old(configuration.itemsProcessor).Some?
      ensures r.Throw? ==> configuration.itemsProcessingFunction == old(configuration.itemsProcessingFunction)
      ensures r.Ok? ==> configuration.itemsProcessingFunction == Some(f)
    {
      r := configuration.SetItemsProcessingFunction(Some(f));
      self := this;
    }

    /** `SetProcessing(IQueueProcessor<...>)`: the mirror image. */
    method SetProcessor(p: Handle) returns (self: QueueConfigurationBuilder, r: Outcome<()>)
      modifies configuration`itemsProcessor
      ensures self == this
      ensures r.Throw? <==> old(configuration.itemsProcessingFunction).Some?
      ensures r.Throw? ==> configuration.itemsProcessor == old(configuration.itemsProcessor)
      ensures r.Ok? ==> configuration.itemsProcessor == Some(p)
    {
      r := configuration.SetItemsProcessor(Some(p));
      self := this;
    }

    method AddPreProcessingAction(action: Handle) returns (self: QueueConfigurationBuilder)
      modifies configuration`itemsPreProcessingActions
      ensures self == this
      ensures configuration.itemsPreProcessingActions == Add(old(configuration.itemsPreProcessingActions), action)
    {
      configuration.itemsPreProcessingActions := Add(configuration.itemsPreProcessingActions, action);
      self := this;
    }

    method AddPreProcessor(preProcessor: Handle) returns (self: QueueConfigurationBuilder)
      modifies configuration`itemsPreProcessors
      ensures self == this
      ensures configuration.itemsPreProcessors == Add(old(configuration.itemsPreProcessors), preProcessor)
    {
      configuration.itemsPreProcessors := Add(configuration.itemsPreProcessors, preProcessor);
      self := this;
    }

    method AddPostProcessingAction(action: Handle) returns (self: QueueConfigurationBuilder)
      modifies configuration`itemsPostProcessingActions
      ensures self == this
      ensures configuration.itemsPostProcessingActions == Add(old(configuration.itemsPostProcessingActions), action)
    {
      configuration.itemsPostProcessingActions := Add(configuration.itemsPostProcessingActions, action);
      self := this;
    }

    method AddPostProcessor(postProcessor: Handle) returns (self: QueueConfigurationBuilder)
      modifies configuration`itemsPostProcessors
      ensures self == this
      ensures configuration.itemsPostProcessors == Add(old(configuration.itemsPostProcessors), postProcessor)
    {
      configuration.itemsPostProcessors := Add(configuration.itemsPostProcessors, postProcessor);
      self := this;
    }

    /** `ConfigureTypes(configure)`: runs the delegate, here the list of calls it
        makes, on a fresh type builder and replaces any earlier type
        configuration with the one built. */
    method ConfigureTypes(commands: seq<TypeCommand>) returns (self: QueueConfigurationBuilder)
      modifies configuration`typesConfiguration
      ensures self == this
      ensures configuration.typesConfiguration != null && fresh(configuration.typesConfiguration)
      ensures fresh(configuration.typesConfiguration.includedTypes)
      ensures fresh(configuration.typesConfiguration.excludedTypes)
      ensures configuration.typesConfiguration.includedTypes != configuration.typesConfiguration.excludedTypes
      ensures configuration.typesConfiguration.includedTypes.elems == IncludedBy(commands)
      ensures configuration.typesConfiguration.excludedTypes.elems == ExcludedBy(commands)
    {
      var builder := new InheritedTypesConfgurationBuilder();
      var i := 0;
      while i < |commands|
        invariant 0 <= i <= |commands|
        invariant builder.Valid() && fresh(builder.includedTypes) && fresh(builder.excludedTypes)
        invariant builder.includedTypes.elems == IncludedBy(commands[..i])
        invariant builder.excludedTypes.elems == ExcludedBy(commands[..i])
      {
        assert commands[..i + 1][..i] == commands[..i];
        match commands[i] {
          case Include(t) => var _ := builder.IncludeSubtype(t);
          case Exclude(t) => builder.ExcludeSubtype(t);
        }
        i := i + 1;
      }
      assert commands[..i] == commands;
      configuration.typesConfiguration := builder.Build();
      self := this;
    }

    /** `Build` returns the accumulated configuration; it does not validate it. */
    method Build() returns (c: QueryConfiguration)
      ensures c == configuration
    {
      c := configuration;
    }
  }
}
