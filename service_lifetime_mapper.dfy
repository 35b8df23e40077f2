/** Services/Tr1ppy.Services.Integration.DependencyInjection/ServiceLifetimeMapper.cs:
    the package's own lifetime enum mapped onto the container's. */
module ServiceLifetimeMapper {
  import opened Wrappers

  /** The values of the attribute's `ServiceLifetime` enum. */
  const Scoped: int := 1
  const Singleton: int := 2
  const Transient: int := 3

  /** The container's `ServiceLifetime`. */
  datatype DiLifetime = DiSingleton | DiScoped | DiTransient

  /** `Map`: a switch expression without a default arm, so any other value
      of the enum variable throws. */
  function Map(lifetime: int): (r: Outcome<DiLifetime>)
    ensures r.Ok? <==> lifetime in {Scoped, Singleton, Transient}
    ensures r.Throw? ==> r.exception == SwitchExpression
  {
    if lifetime == Singleton then Ok(DiSingleton)
    else if lifetime == Scoped then Ok(DiScoped)
    else if lifetime == Transient then Ok(DiTransient)
    else Throw(SwitchExpression)
  }

  /** The attribute value each container lifetime comes from. */
  function Source(l: DiLifetime): int
  {
    match l
    case DiSingleton => Singleton
    case DiScoped => Scoped
    case DiTransient => Transient
  }

  /** Each member maps to the container lifetime of the same name, and the
      mapping can be undone: it is injective on its domain. */
  lemma MapRoundTrip(lifetime: int, l: DiLifetime)
    ensures Map(Source(l)) == Ok(l)
    ensures Map(lifetime).Ok? ==> Source(Map(lifetime).value) == lifetime
    ensures Map(Singleton) == Ok(DiSingleton) && Map(Scoped) == Ok(DiScoped) && Map(Transient) == Ok(DiTransient)
  {
  }
}
