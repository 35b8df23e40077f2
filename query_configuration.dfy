/** Queries/Tr1ppy.Queries.Abstractions/QueryConfiguration.cs: the bundle a
    queue is built from. The processing function and the processor object are
    mutually exclusive; `Validate` checks that exactly one is set and keeps one
    element per runtime type in each pre/post collection. */
module QueryConfigurations {
  import opened Wrappers
  import opened TypeUniverse
  import opened HashSets
  import opened InheritedTypes

  /** A provider, processor, pre/post-processor object or delegate instance. */
  type Handle(==, !new)

  /** The runtime types of the elements of `s`. */
  function TypesOf<T>(s: seq<T>, typeOf: T -> TypeId): set<TypeId> {
    set i | 0 <= i < |s| :: typeOf(s[i])
  }

  predicate OnePerType<T>(s: seq<T>, typeOf: T -> TypeId) {
    forall i, j :: 0 <= i < j < |s| ==> typeOf(s[i]) != typeOf(s[j])
  }

  /** `EnsureOnlyOneTypeInCollection`: group by runtime type, in order of first
      appearance, and keep the first element of each group. */
  function EnsureOnlyOneTypeInCollection<T(==)>(items: seq<T>, typeOf: T -> TypeId): (r: seq<T>)
    ensures forall x :: x in r ==> x in items
    ensures TypesOf(r, typeOf) == TypesOf(items, typeOf)
    ensures OnePerType(r, typeOf)
  {
    if items == [] then []
    else
      var init := items[..|items| - 1];
      var last := items[|items| - 1];
      var rest := EnsureOnlyOneTypeInCollection(init, typeOf);
      assert TypesOf(items, typeOf) == TypesOf(init, typeOf) + {typeOf(last)} by {
        forall t | t in TypesOf(items, typeOf) ensures t in TypesOf(init, typeOf) + {typeOf(last)} {
          var i :| 0 <= i < |items| && typeOf(items[i]) == t;
          if i < |items| - 1 { assert init[i] == items[i]; }
        }
        forall t | t in TypesOf(init, typeOf) ensures t in TypesOf(items, typeOf) {
          var i :| 0 <= i < |init| && typeOf(init[i]) == t;
          assert items[i] == init[i];
        }
        assert typeOf(items[|items| - 1]) in TypesOf(items, typeOf);
      }
      if typeOf(last) in TypesOf(rest, typeOf) then rest
      else
        assert TypesOf(rest + [last], typeOf) == TypesOf(rest, typeOf) + {typeOf(last)} by {
          var r' := rest + [last];
          forall t | t in TypesOf(r', typeOf) ensures t in TypesOf(rest, typeOf) + {typeOf(last)} {
            var i :| 0 <= i < |r'| && typeOf(r'[i]) == t;
            if i < |rest| { assert r'[i] == rest[i]; }
          }
          forall t | t in TypesOf(rest, typeOf) ensures t in TypesOf(r', typeOf) {
            var i :| 0 <= i < |rest| && typeOf(rest[i]) == t;
            assert r'[i] == rest[i];
          }
          assert r'[|rest|] == last;
        }
        assert forall i :: 0 <= i < |rest| ==> typeOf(rest[i]) in TypesOf(rest, typeOf);
        rest + [last]
  }

  /** Each kept element is the first one of its type: no element of the same
      type comes before it in the input. */
  lemma {:induction false} DedupKeepsFirst<T>(items: seq<T>, typeOf: T -> TypeId, x: T, k: nat)
    requires x in EnsureOnlyOneTypeInCollection(items, typeOf)
    requires k < |items| && typeOf(items[k]) == typeOf(x)
    ensures x in items[..k + 1]
  {
    var n := |items|;
    var init := items[..n - 1];
    var rest := EnsureOnlyOneTypeInCollection(init, typeOf);
    if x in rest {
      if k < n - 1 {
        assert init[k] == items[k];
        DedupKeepsFirst(init, typeOf, x, k);
        assert init[..k + 1] == items[..k + 1];
      } else {
        assert x in init;
        assert items[..k + 1] == items;
      }
    } else {
      // x is the last element, kept because no earlier element had its type
      assert x == items[n - 1];
      assert forall i :: 0 <= i < |init| ==> typeOf(init[i]) in TypesOf(init, typeOf);
      assert forall i :: 0 <= i < n - 1 ==> items[i] == init[i];
      assert k == n - 1;
      assert items[..k + 1] == items;
    }
  }

  /** A collection that already holds one element per type is left as it is. */
  lemma {:induction false} DedupOfOnePerType<T>(items: seq<T>, typeOf: T -> TypeId)
    requires OnePerType(items, typeOf)
    ensures EnsureOnlyOneTypeInCollection(items, typeOf) == items
  {
    if items != [] {
      var n := |items|;
      var init := items[..n - 1];
      assert OnePerType(init, typeOf);
      DedupOfOnePerType(init, typeOf);
      forall t | t in TypesOf(init, typeOf) ensures t != typeOf(items[n - 1]) {
        var i :| 0 <= i < |init| && typeOf(init[i]) == t;
        assert items[i] == init[i];
      }
      assert init + [items[n - 1]] == items;
    }
  }

  /** Deduplication is idempotent. */
  lemma DedupIdempotent<T>(items: seq<T>, typeOf: T -> TypeId)
    ensures EnsureOnlyOneTypeInCollection(EnsureOnlyOneTypeInCollection(items, typeOf), typeOf)
         == EnsureOnlyOneTypeInCollection(items, typeOf)
  {
    DedupOfOnePerType(EnsureOnlyOneTypeInCollection(items, typeOf), typeOf);
  }

  /** All pre-processing delegates share one runtime type (that of the
      `Action<QueuePreProcessContext<TPayload>>` delegate), and likewise for
      post-processing: at most one of each survives deduplication. */
  lemma SingleTypeCollapses<T>(items: seq<T>, typeOf: T -> TypeId, t: TypeId)
    requires forall i :: 0 <= i < |items| ==> typeOf(items[i]) == t
    ensures |EnsureOnlyOneTypeInCollection(items, typeOf)| <= 1
  {
    var r := EnsureOnlyOneTypeInCollection(items, typeOf);
    forall i | 0 <= i < |r| ensures typeOf(r[i]) == t {
      assert r[i] in items;
    }
  }

  /** Exactly one processing mechanism and one element per type in each of the
      four pre/post collections: the state `Validate` leaves behind. */
  ghost predicate Validated(c: QueryConfiguration, typeOf: Handle -> TypeId)
    reads c
  {
    && (c.itemsProcessingFunction.Some? != c.itemsProcessor.Some?)
    && OnePerType(c.itemsPreProcessingActions, typeOf)
    && OnePerType(c.itemsPreProcessors, typeOf)
    && OnePerType(c.itemsPostProcessingActions, typeOf)
    && OnePerType(c.itemsPostProcessors, typeOf)
  }

  /** The messages of the `InvalidOperationException`s the setters and `Validate` throw. */
  const FunctionOverProcessorMessage: string := "Cannot set ItemsProcessingFunction when ItemsProcessor is already assigned."
  const ProcessorOverFunctionMessage: string := "Cannot set ItemsProcessor when ItemsProcessingFunction is already assigned."
  const BothConfiguredMessage: string := "Cannot configure both ItemsProcessor and ItemsProcessingFunction."
  const NoneConfiguredMessage: string := "One of ItemsProcessor or ItemsProcessingFunction must be configured."

  class QueryConfiguration {
    var name: string
    var capacity: Option<int>
    var typesConfiguration: InheritedTypesConfiguration?
    var itemsProviders: seq<Handle>
    var itemsProcessingFunction: Option<Handle>
    var itemsProcessor: Option<Handle>
    var itemsPreProcessingActions: seq<Handle>
    var itemsPreProcessors: seq<Handle>
    var itemsPostProcessingActions: seq<Handle>
    var itemsPostProcessors: seq<Handle>

    constructor (name: string)
      ensures this.name == name && capacity == None && typesConfiguration == null
      ensures itemsProviders == [] && itemsProcessingFunction == None && itemsProcessor == None
      ensures itemsPreProcessingActions == [] && itemsPreProcessors == []
      ensures itemsPostProcessingActions == [] && itemsPostProcessors == []
    {
      this.name := name;
      capacity := None;
      typesConfiguration := null;
      itemsProviders := [];
      itemsProcessingFunction, itemsProcessor := None, None;
      itemsPreProcessingActions, itemsPreProcessors := [], [];
      itemsPostProcessingActions, itemsPostProcessors := [], [];
    }

    /** The `ItemsProcessingFunction` setter. `None` (null) is always accepted. */
    method SetItemsProcessingFunction(value: Option<Handle>) returns (r: Outcome<()>)
      modifies this`itemsProcessingFunction
      ensures r.Throw? <==> old(itemsProcessor).Some? && value.Some?
      ensures r.Throw? ==> r.exception.InvalidOperation? && itemsProcessingFunction == old(itemsProcessingFunction)
      ensures r.Ok? ==> itemsProcessingFunction == value
    {
      if itemsProcessor.Some? && value.Some? {
        return Throw(InvalidOperation(FunctionOverProcessorMessage));
      }
      itemsProcessingFunction := value;
      r := Ok(());
    }

    /** The `ItemsProcessor` setter. `None` (null) is always accepted. */
    method SetItemsProcessor(value: Option<Handle>) returns (r: Outcome<()>)
      modifies this`itemsProcessor
      ensures r.Throw? <==> old(itemsProcessingFunction).Some? && value.Some?
      ensures r.Throw? ==> r.exception.InvalidOperation? && itemsProcessor == old(itemsProcessor)
      ensures r.Ok? ==> itemsProcessor == value
    {
      if itemsProcessingFunction.Some? && value.Some? {
        return Throw(InvalidOperation(ProcessorOverFunctionMessage));
      }
      itemsProcessor := value;
      r := Ok(());
    }

    /** `Validate`: throws unless exactly one processing mechanism is set, then
        deduplicates the four pre/post collections by runtime type. The
        providers are not deduplicated. */
    method Validate(typeOf: Handle -> TypeId) returns (r: Outcome<()>)
      modifies this`itemsPreProcessingActions, this`itemsPreProcessors,
               this`itemsPostProcessingActions, this`itemsPostProcessors
      ensures r.Ok? <==> (old(itemsProcessingFunction).Some? != old(itemsProcessor).Some?)
      ensures r.Throw? ==> r.exception.InvalidOperation?
      ensures r.Throw? ==> unchanged(this)
      ensures r.Ok? ==> Validated(this, typeOf)
      ensures r.Ok? ==>
        && itemsPreProcessingActions == EnsureOnlyOneTypeInCollection(old(itemsPreProcessingActions), typeOf)
        && itemsPreProcessors == EnsureOnlyOneTypeInCollection(old(itemsPreProcessors), typeOf)
        && itemsPostProcessingActions == EnsureOnlyOneTypeInCollection(old(itemsPostProcessingActions), typeOf)
        && itemsPostProcessors == EnsureOnlyOneTypeInCollection(old(itemsPostProcessors), typeOf)
    {
      var hasFunction := itemsProcessingFunction.Some?;
      var hasProcessor := itemsProcessor.Some?;
      if hasProcessor && hasFunction {
        return Throw(InvalidOperation(BothConfiguredMessage));
      }
      if !hasProcessor && !hasFunction {
        return Throw(InvalidOperation(NoneConfiguredMessage));
      }
      DeduplicateStages(typeOf);
      r := Ok(());
    }

    /** The deduplication half of `Validate`, on the four pre/post collections. */
    method DeduplicateStages(typeOf: Handle -> TypeId)
      modifies this`itemsPreProcessingActions, this`itemsPreProcessors,
               this`itemsPostProcessingActions, this`itemsPostProcessors
      ensures itemsPreProcessingActions == EnsureOnlyOneTypeInCollection(old(itemsPreProcessingActions), typeOf)
      ensures itemsPreProcessors == EnsureOnlyOneTypeInCollection(old(itemsPreProcessors), typeOf)
      ensures itemsPostProcessingActions == EnsureOnlyOneTypeInCollection(old(itemsPostProcessingActions), typeOf)
      ensures itemsPostProcessors == EnsureOnlyOneTypeInCollection(old(itemsPostProcessors), typeOf)
    {
      itemsPreProcessors := EnsureOnlyOneTypeInCollection(itemsPreProcessors, typeOf);
      itemsPostProcessors := EnsureOnlyOneTypeInCollection(itemsPostProcessors, typeOf);
      itemsPreProcessingActions := EnsureOnlyOneTypeInCollection(itemsPreProcessingActions, typeOf);
      itemsPostProcessingActions := EnsureOnlyOneTypeInCollection(itemsPostProcessingActions, typeOf);
    }
  }

  /** A second function cannot be installed over a processor until the processor
      is reset to null; after that reset it can. */
  method ResetThenSwitch(c: QueryConfiguration, f: Handle) returns (r: Outcome<()>)
    requires c.itemsProcessor.Some?
    modifies c
    ensures r.Ok? && c.itemsProcessor == None && c.itemsProcessingFunction == Some(f)
  {
    var _ := c.SetItemsProcessor(None);
    r := c.SetItemsProcessingFunction(Some(f));
  }
}
