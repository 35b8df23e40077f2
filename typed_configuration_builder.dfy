/** Queries/Tr1ppy.Querries.Integration/TypedConfigurationBuilder.cs: a
    queue builder that records stage types for later resolution from a
    service container, checking `Type` arguments against the required
    base type and reporting a mismatch with readable type names. */
module TypedConfigurationBuilders {
  import opened Wrappers
  import opened TypeUniverse
  import opened QueueConfigurationBuilders

  /** `FullName ?? Name`. */
  function DisplayName(info: TypeInfo): string {
    if info.fullName.Some? then info.fullName.value else info.name
  }

  /** The position of the first occurrence of `c` in `s`, or -1 (`IndexOf`). */
  function IndexOf(s: string, c: char): (r: int)
    ensures -1 <= r < |s|
    ensures r == -1 <==> c !in s
    ensures r >= 0 ==> s[r] == c && c !in s[..r]
  {
    if s == [] then -1
    else if s[0] == c then 0
    else
      var k := IndexOf(s[1..], c);
      assert s[1..][..(if k < 0 then 0 else k)] == s[1..1 + (if k < 0 then 0 else k)];
      if k == -1 then -1 else k + 1
  }

  /** `string.Join(", ", parts)`. */
  function Join(parts: seq<string>): string
  {
    if parts == [] then ""
    else if |parts| == 1 then parts[0]
    else Join(parts[..|parts| - 1]) + ", " + parts[|parts| - 1]
  }

  /** `FormatType`: a non-generic type prints as `FullName ?? Name`; a generic
      one as its definition's full name cut at the first backtick, then its
      arguments, formatted the same way, between angle brackets. A definition
      without a full name fails the `IndexOf` call with a null reference, one
      without a backtick fails the slice with an out-of-range error. */
  function FormatType(u: Universe, t: TypeId): Outcome<string>
    requires Valid(u) && t in u.types
    decreases u.types[t].rank, 1
  {
    var info := u.types[t];
    if !info.isGeneric then Ok(DisplayName(info))
    else
      var definition := u.types[info.genericDefinition.value];
      if definition.fullName.None? then Throw(NullReference)
      else
        var typeName := definition.fullName.value;
        var tick := IndexOf(typeName, '`');
        if tick < 0 then Throw(ArgumentOutOfRange)
        else
          match FormatArguments(u, info.genericArguments, info.rank)
          case Throw(e) => Throw(e)
          case Ok(args) => Ok(typeName[..tick] + "<" + Join(args) + ">")
  }

  /** `GetGenericArguments().Select(FormatType).ToArray()`: the first failure wins. */
  function FormatArguments(u: Universe, args: seq<TypeId>, bound: nat): Outcome<seq<string>>
    requires Valid(u) && AllIn(args, u.types) && AllBelow(args, u.types, bound)
    decreases bound, 0, |args|
  {
    if args == [] then Ok([])
    else
      var init := args[..|args| - 1];
      assert AllIn(init, u.types) && AllBelow(init, u.types, bound) by {
        forall i | 0 <= i < |init| ensures init[i] == args[i] { }
      }
      match FormatArguments(u, init, bound)
      case Throw(e) => Throw(e)
      case Ok(prefix) =>
        match FormatType(u, args[|args| - 1])
        case Throw(e) => Throw(e)
        case Ok(last) => Ok(prefix + [last])
  }

  /** The reference condition for `FormatType` to succeed: every generic type
      in the nesting has a definition whose full name is known and holds a
      backtick. */
  predicate Formattable(u: Universe, t: TypeId)
    requires Valid(u) && t in u.types
    decreases u.types[t].rank, 1
  {
    var info := u.types[t];
    !info.isGeneric || (
      var definition := u.types[info.genericDefinition.value];
      && definition.fullName.Some?
      && '`' in definition.fullName.value
      && AllFormattable(u, info.genericArguments, info.rank))
  }

  predicate AllFormattable(u: Universe, args: seq<TypeId>, bound: nat)
    requires Valid(u) && AllIn(args, u.types) && AllBelow(args, u.types, bound)
    decreases bound, 0
  {
    forall i :: 0 <= i < |args| ==> Formattable(u, args[i])
  }

  /** `FormatType` fails exactly when some generic definition in the nesting
      lacks a full name or a backtick in it. */
  lemma {:induction false} FormatTypeSucceedsIff(u: Universe, t: TypeId)
    requires Valid(u) && t in u.types
    ensures FormatType(u, t).Ok? <==> Formattable(u, t)
    ensures FormatType(u, t).Throw? ==> FormatType(u, t).exception in {NullReference, ArgumentOutOfRange}
    decreases u.types[t].rank, 1
  {
    var info := u.types[t];
    if info.isGeneric {
      FormatArgumentsSucceedIff(u, info.genericArguments, info.rank);
    }
  }

  lemma {:induction false} FormatArgumentsSucceedIff(u: Universe, args: seq<TypeId>, bound: nat)
    requires Valid(u) && AllIn(args, u.types) && AllBelow(args, u.types, bound)
    ensures FormatArguments(u, args, bound).Ok? <==> AllFormattable(u, args, bound)
    ensures FormatArguments(u, args, bound).Throw? ==>
      FormatArguments(u, args, bound).exception in {NullReference, ArgumentOutOfRange}
    ensures FormatArguments(u, args, bound).Ok? ==> |FormatArguments(u, args, bound).value| == |args|
    decreases bound, 0, |args|
  {
    if args != [] {
      var n := |args|;
      var init := args[..n - 1];
      assert AllIn(init, u.types) && AllBelow(init, u.types, bound) by {
        forall i | 0 <= i < |init| ensures init[i] == args[i] { }
      }
      FormatArgumentsSucceedIff(u, init, bound);
      FormatTypeSucceedsIff(u, args[n - 1]);
      if AllFormattable(u, args, bound) {
        assert AllFormattable(u, init, bound) by {
          forall i | 0 <= i < |init| ensures Formattable(u, init[i]) {
            assert init[i] == args[i];
          }
        }
      }
      if AllFormattable(u, init, bound) && Formattable(u, args[n - 1]) {
        forall i | 0 <= i < n ensures Formattable(u, args[i]) {
          if i < n - 1 {
            assert init[i] == args[i];
          }
        }
      }
    }
  }

  /** How often `c` occurs in `s`. */
  function Count(s: string, c: char): nat
  {
    if s == [] then 0 else (if s[0] == c then 1 else 0) + Count(s[1..], c)
  }

  lemma {:induction false} CountAppend(a: string, b: string, c: char)
    ensures Count(a + b, c) == Count(a, c) + Count(b, c)
  {
    if a != [] {
      assert (a + b)[1..] == a[1..] + b;
      CountAppend(a[1..], b, c);
    } else {
      assert a + b == b;
    }
  }

  lemma {:induction false} CountAbsent(s: string, c: char)
    requires c !in s
    ensures Count(s, c) == 0
  {
    if s != [] {
      CountAbsent(s[1..], c);
    }
  }

  /** Angle brackets open and close equally often, and no backtick is left. */
  predicate WellFormedName(s: string) {
    Count(s, '<') == Count(s, '>') && '`' !in s
  }

  /** The names in the table carry no angle brackets, and the printed name of
      a non-generic type carries no backtick: the usual shape of reflection
      names. */
  predicate PlainNames(u: Universe) {
    forall t :: t in u.types ==>
      && '<' !in u.types[t].name && '>' !in u.types[t].name
      && (u.types[t].fullName.Some? ==> '<' !in u.types[t].fullName.value && '>' !in u.types[t].fullName.value)
      && (!u.types[t].isGeneric ==> '`' !in DisplayName(u.types[t]))
  }

  /** Over plain names, a formatted name has balanced angle brackets and no
      backtick: every generic definition's arity suffix is cut away. */
  lemma {:induction false} FormatTypeWellFormed(u: Universe, t: TypeId)
    requires Valid(u) && t in u.types && PlainNames(u) && FormatType(u, t).Ok?
    ensures WellFormedName(FormatType(u, t).value)
    decreases u.types[t].rank, 1
  {
    var info := u.types[t];
    if !info.isGeneric {
      CountAbsent(DisplayName(info), '<');
      CountAbsent(DisplayName(info), '>');
    } else {
      var typeName := u.types[info.genericDefinition.value].fullName.value;
      var tick := IndexOf(typeName, '`');
      var prefix := typeName[..tick];
      var args := FormatArguments(u, info.genericArguments, info.rank).value;
      FormatArgumentsWellFormed(u, info.genericArguments, info.rank);
      JoinWellFormed(args);
      assert '<' !in prefix && '>' !in prefix by {
        forall i | 0 <= i < |prefix| ensures prefix[i] == typeName[i] { }
      }
      assert '`' !in prefix;
      WrapWellFormed(prefix, Join(args));
    }
  }

  /** A bracket-free prefix followed by a well-formed name in angle brackets
      is well formed. */
  lemma WrapWellFormed(prefix: string, inner: string)
    requires '<' !in prefix && '>' !in prefix && '`' !in prefix
    requires WellFormedName(inner)
    ensures WellFormedName(prefix + "<" + inner + ">")
  {
    CountAbsent(prefix, '<');
    CountAbsent(prefix, '>');
    CountAppend(prefix, "<", '<');
    CountAppend(prefix, "<", '>');
    CountAppend(prefix + "<", inner, '<');
    CountAppend(prefix + "<", inner, '>');
    CountAppend(prefix + "<" + inner, ">", '<');
    CountAppend(prefix + "<" + inner, ">", '>');
    assert Count(">", '>') == 1 && Count(">", '<') == 0 by { assert ">"[1..] == []; }
    assert Count("<", '<') == 1 && Count("<", '>') == 0 by { assert "<"[1..] == []; }
  }

  lemma {:induction false} FormatArgumentsWellFormed(u: Universe, args: seq<TypeId>, bound: nat)
    requires Valid(u) && AllIn(args, u.types) && AllBelow(args, u.types, bound) && PlainNames(u)
    requires FormatArguments(u, args, bound).Ok?
    ensures forall i :: 0 <= i < |FormatArguments(u, args, bound).value| ==>
      WellFormedName(FormatArguments(u, args, bound).value[i])
    decreases bound, 0, |args|
  {
    if args != [] {
      var n := |args|;
      var init := args[..n - 1];
      assert AllIn(init, u.types) && AllBelow(init, u.types, bound) by {
        forall i | 0 <= i < |init| ensures init[i] == args[i] { }
      }
      FormatArgumentsWellFormed(u, init, bound);
      FormatTypeWellFormed(u, args[n - 1]);
    }
  }

  lemma {:induction false} JoinWellFormed(parts: seq<string>)
    requires forall i :: 0 <= i < |parts| ==> WellFormedName(parts[i])
    ensures WellFormedName(Join(parts))
  {
    if |parts| == 0 {
    } else if |parts| > 1 {
      var init := parts[..|parts| - 1];
      var last := parts[|parts| - 1];
      JoinWellFormed(init);
      var sep := ", ";
      CountAbsent(sep, '<');
      CountAbsent(sep, '>');
      CountAppend(Join(init), sep, '<');
      CountAppend(Join(init), sep, '>');
      CountAppend(Join(init) + sep, last, '<');
      CountAppend(Join(init) + sep, last, '>');
    }
  }

  /** `EnsureImplement(parent, target)`: nothing when `target` is assignable
      to `parent`; otherwise an `ArgumentException` naming both types, unless
      formatting one of the names throws first. */
  function EnsureImplement(u: Universe, parent: TypeId, target: TypeId): (r: Outcome<()>)
    requires Valid(u) && parent in u.types && target in u.types
    ensures r.Ok? <==> u.assignable(parent, target)
    ensures !u.assignable(parent, target) && !(Formattable(u, target) && Formattable(u, parent)) ==>
      r.Throw? && !r.exception.Argument?
    ensures !u.assignable(parent, target) && FormatType(u, target).Ok? && FormatType(u, parent).Ok? ==>
      r.Throw? && r.exception.Argument? && r.exception.message ==
        "Type " + FormatType(u, target).value + " must implement " + FormatType(u, parent).value
  {
    FormatTypeSucceedsIff(u, target);
    FormatTypeSucceedsIff(u, parent);
    if u.assignable(parent, target) then Ok(())
    else
      match FormatType(u, target)
      case Throw(e) => Throw(e)
      case Ok(targetName) =>
        match FormatType(u, parent)
        case Throw(e) => Throw(e)
        case Ok(parentName) => Throw(Argument("Type " + targetName + " must implement " + parentName))
  }

  class TypedQueryConfigurationBuilder {
    /** The inherited `QueueConfigurationBuilder` part. */
    const builder: QueueConfigurationBuilder
    const universe: Universe
    /** `BaseItemsProvider<TPayload>`, `IQueuePreProcessor<TPayload>`,
        `IQueueProcessor<TPayload, TResult>`, `IQueuePostProcessor<TPayload, TResult>`. */
    const providerBase: TypeId
    const preProcessorBase: TypeId
    const processorBase: TypeId
    const postProcessorBase: TypeId

    var processorType: Option<TypeId>
    var providerTypes: seq<TypeId>
    var preProcessorTypes: seq<TypeId>
    var postProcessorTypes: seq<TypeId>

    ghost predicate Valid()
      reads this
    {
      && TypeUniverse.Valid(universe)
      && providerBase in universe.types && preProcessorBase in universe.types
      && processorBase in universe.types && postProcessorBase in universe.types
    }

    constructor (name: string, universe: Universe,
                 providerBase: TypeId, preProcessorBase: TypeId, processorBase: TypeId, postProcessorBase: TypeId)
      requires TypeUniverse.Valid(universe)
      requires providerBase in universe.types && preProcessorBase in universe.types
      requires processorBase in universe.types && postProcessorBase in universe.types
      ensures Valid() && fresh(builder) && builder.configuration.name == name
      ensures this.universe == universe
      ensures this.providerBase == providerBase && this.preProcessorBase == preProcessorBase
      ensures this.processorBase == processorBase && this.postProcessorBase == postProcessorBase
      ensures processorType == None
      ensures providerTypes == [] && preProcessorTypes == [] && postProcessorTypes == []
    {
      builder := new QueueConfigurationBuilder(name);
      this.universe := universe;
      this.providerBase, this.preProcessorBase := providerBase, preProcessorBase;
      this.processorBase, this.postProcessorBase := processorBase, postProcessorBase;
      processorType := None;
      providerTypes, preProcessorTypes, postProcessorTypes := [], [], [];
    }

    /** `AddProvider(Type)`. */
    method AddProvider(providerType: TypeId) returns (self: TypedQueryConfigurationBuilder, r: Outcome<()>)
      requires Valid() && providerType in universe.types
      modifies this`providerTypes
      ensures self == this
      ensures r == EnsureImplement(universe, providerBase, providerType)
      ensures r.Ok? ==> providerTypes == old(providerTypes) + [providerType]
      ensures r.Throw? ==> providerTypes == old(providerTypes)
    {
      self := this;
      r := EnsureImplement(universe, providerBase, providerType);
      if r.Ok? {
        providerTypes := providerTypes + [providerType];
      }
    }

    /** `AddProvider<TProvider>()`: the generic constraint replaces the check. */
    method AddProviderOf(providerType: TypeId) returns (self: TypedQueryConfigurationBuilder)
      modifies this`providerTypes
      ensures self == this && providerTypes == old(providerTypes) + [providerType]
    {
      self := this;
      providerTypes := providerTypes + [providerType];
    }

    /** `AddPreProcessor(Type)`. */
    method AddPreProcessor(preProcessorType: TypeId) returns (self: TypedQueryConfigurationBuilder, r: Outcome<()>)
      requires Valid() && preProcessorType in universe.types
      modifies this`preProcessorTypes
      ensures self == this
      ensures r == EnsureImplement(universe, preProcessorBase, preProcessorType)
      ensures r.Ok? ==> preProcessorTypes == old(preProcessorTypes) + [preProcessorType]
      ensures r.Throw? ==> preProcessorTypes == old(preProcessorTypes)
    {
      self := this;
      r := EnsureImplement(universe, preProcessorBase, preProcessorType);
      if r.Ok? {
        preProcessorTypes := preProcessorTypes + [preProcessorType];
      }
    }

    /** `AddPreProcessor<TPreProcessor>()`. */
    method AddPreProcessorOf(preProcessorType: TypeId) returns (self: TypedQueryConfigurationBuilder)
      modifies this`preProcessorTypes
      ensures self == this && preProcessorTypes == old(preProcessorTypes) + [preProcessorType]
    {
      self := this;
      preProcessorTypes := preProcessorTypes + [preProcessorType];
    }

    /** `SetProcessor(Type)`: replaces the stored processor type. */
    method SetProcessor(processorType: TypeId) returns (self: TypedQueryConfigurationBuilder, r: Outcome<()>)
      requires Valid() && processorType in universe.types
      modifies this`processorType
      ensures self == this
      ensures r == EnsureImplement(universe, processorBase, processorType)
      ensures r.Ok? ==> this.processorType == Some(processorType)
      ensures r.Throw? ==> this.processorType == old(this.processorType)
    {
      self := this;
      r := EnsureImplement(universe, processorBase, processorType);
      if r.Ok? {
        this.processorType := Some(processorType);
      }
    }

    /** `SetProcessor<TProcessor>()`. */
    method SetProcessorOf(processorType: TypeId) returns (self: TypedQueryConfigurationBuilder)
      modifies this`processorType
      ensures self == this && this.processorType == Some(processorType)
    {
      self := this;
      this.processorType := Some(processorType);
    }

    /** `AddPostProcessor(Type)`. */
    method AddPostProcessor(postProcessorType: TypeId) returns (self: TypedQueryConfigurationBuilder, r: Outcome<()>)
      requires Valid() && postProcessorType in universe.types
      modifies this`postProcessorTypes
      ensures self == this
      ensures r == EnsureImplement(universe, postProcessorBase, postProcessorType)
      ensures r.Ok? ==> postProcessorTypes == old(postProcessorTypes) + [postProcessorType]
      ensures r.Throw? ==> postProcessorTypes == old(postProcessorTypes)
    {
      self := this;
      r := EnsureImplement(universe, postProcessorBase, postProcessorType);
      if r.Ok? {
        postProcessorTypes := postProcessorTypes + [postProcessorType];
      }
    }

    /** `AddPostProcessor<TPostProcessor>()`. */
    method AddPostProcessorOf(postProcessorType: TypeId) returns (self: TypedQueryConfigurationBuilder)
      modifies this`postProcessorTypes
      ensures self == this && postProcessorTypes == old(postProcessorTypes) + [postProcessorType]
    {
      self := this;
      postProcessorTypes := postProcessorTypes + [postProcessorType];
    }
  }
}
