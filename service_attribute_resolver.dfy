/** Services/Tr1ppy.Services.Integration/ServiceAttributeResolver.cs: reading
    the `[OnPlatform]` and `[FromAbstraction]` attributes of a service type. */
module ServiceAttributeResolver {
  import opened Wrappers
  import opened TypeUniverse
  import OnPlatform

  /** `HavePlatfromAttributeAndNotSupportedOnCurrent`: the attribute is there
      and, unless its flags are `All`, the running platform is unknown, is
      Windows, is Linux without the Linux bit, or is macOS with neither the
      macOS nor the Windows bit (the translation of OnPlatformAttribute.cs as
      written). */
  predicate HavePlatfromAttributeAndNotSupportedOnCurrent(u: Universe, serviceType: TypeId, running: OnPlatform.OSPlatform)
    requires serviceType in u.types
    ensures HavePlatfromAttributeAndNotSupportedOnCurrent(u, serviceType, running) <==>
      var flags := u.types[serviceType].attributes.onPlatform;
      && flags.Some?
      && (|| running == OnPlatform.OtherPlatform
          || (&& flags.value != OnPlatform.AllFlags
              && (|| running == OnPlatform.Windows
                  || (running == OnPlatform.Linux && !OnPlatform.HasFlag(flags.value, OnPlatform.LinuxFlag))
                  || (running == OnPlatform.OSX && !OnPlatform.HasFlag(flags.value, OnPlatform.WindowsFlag)
                      && !OnPlatform.HasFlag(flags.value, OnPlatform.MacOSFlag)))))
  {
    var flags := u.types[serviceType].attributes.onPlatform;
    flags.Some? && !OnPlatform.OnPlatformAttribute(flags.value).IsSupportByCurrentPlatform(running)
  }

  /** The display text of a type in a message (`Type.ToString()`). */
  function TypeText(u: Universe, t: TypeId): string
    requires t in u.types
  {
    var info := u.types[t];
    if info.fullName.Some? then info.fullName.value else info.name
  }

  /** The message of the exception for an abstraction the service does not implement. */
  function NotImplementedMessage(u: Universe, serviceType: TypeId): string
    requires serviceType in u.types
  {
    "Unable to register " + TypeText(u, serviceType) + " from " + TypeText(u, serviceType) + " cause is not implemnted!"
  }

  /** Every declared abstraction is assignable from the service type. */
  predicate AllImplemented(u: Universe, serviceType: TypeId, abstractions: seq<TypeId>) {
    forall i :: 0 <= i < |abstractions| ==> u.assignable(abstractions[i], serviceType)
  }

  /** `TryGetAbstractionFromAttribute`: throws `ArgumentException` when some
      declared abstraction is not implemented; otherwise hands back every
      declared abstraction, in enumeration order, and answers whether there
      was any. */
  method TryGetAbstractionFromAttribute(u: Universe, serviceType: TypeId)
    returns (r: Outcome<(bool, seq<TypeId>)>)
    requires serviceType in u.types
    ensures var declared := u.types[serviceType].attributes.fromAbstractions;
      && (r.Ok? <==> AllImplemented(u, serviceType, declared))
      && (r.Ok? ==> r.value.1 == declared && (r.value.0 <==> |declared| > 0))
      && (r.Throw? ==> r.exception == Argument(NotImplementedMessage(u, serviceType)))
  {
    var attributes := u.types[serviceType].attributes.fromAbstractions;
    var abstractionsList: seq<TypeId> := [];
    for i := 0 to |attributes|
      invariant abstractionsList == attributes[..i]
      invariant AllImplemented(u, serviceType, abstractionsList)
    {
      var abstraction := attributes[i];
      if !u.assignable(abstraction, serviceType) {
        return Throw(Argument(NotImplementedMessage(u, serviceType)));
      }
      abstractionsList := abstractionsList + [abstraction];
    }
    assert attributes[..|attributes|] == attributes;
    r := Ok((|abstractionsList| > 0, abstractionsList));
  }
}
