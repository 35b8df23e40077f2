/** Queries/Tr1ppy.Queries.Abstractions/BaseItemsProvider.cs: `GetAsync`
    passes through the items of `GetItemsAsync` and increments the queue
    counter once for each, before handing the item over. The asynchronous
    enumerator becomes the finite sequence it produces. */
module ItemsProviders {
  import opened QueueCounters

  datatype ProviderEvent<P> = CounterIncremented | Yielded(item: P)

  /** The events of a pass over `items`: an increment, then the item, for each. */
  ghost function IncrementThenYield<P>(items: seq<P>): seq<ProviderEvent<P>>
  {
    if items == [] then []
    else IncrementThenYield(items[..|items| - 1]) + [CounterIncremented, Yielded(items[|items| - 1])]
  }

  /** The k-th item is yielded right after the k-th increment, so when it
      reaches the consumer the counter already accounts for it. */
  lemma {:induction false} IncrementPrecedesYield<P>(items: seq<P>, k: nat)
    requires k < |items|
    ensures |IncrementThenYield(items)| == 2 * |items|
    ensures IncrementThenYield(items)[2 * k] == CounterIncremented
    ensures IncrementThenYield(items)[2 * k + 1] == Yielded(items[k])
  {
    var n := |items|;
    if k < n - 1 {
      IncrementPrecedesYield(items[..n - 1], k);
      assert items[..n - 1][k] == items[k];
    } else if n > 1 {
      IncrementPrecedesYield(items[..n - 1], 0);
    }
  }

  /** The number of increments among the events of a pass equals the number of items. */
  lemma {:induction false} OneIncrementPerItem<P>(items: seq<P>)
    ensures CountIncrements(IncrementThenYield(items)) == |items|
  {
    if items != [] {
      var n := |items|;
      OneIncrementPerItem(items[..n - 1]);
      var pair: seq<ProviderEvent<P>> := [CounterIncremented, Yielded(items[n - 1])];
      CountIncrementsAppend(IncrementThenYield(items[..n - 1]), pair);
      assert pair[..1] == [CounterIncremented];
      assert CountIncrements(pair[..1]) == 1 by { assert pair[..1][..0] == []; }
    }
  }

  function CountIncrements<P>(events: seq<ProviderEvent<P>>): nat
  {
    if events == [] then 0
    else CountIncrements(events[..|events| - 1]) + (if events[|events| - 1].CounterIncremented? then 1 else 0)
  }

  lemma {:induction false} CountIncrementsAppend<P>(a: seq<ProviderEvent<P>>, b: seq<ProviderEvent<P>>)
    ensures CountIncrements(a + b) == CountIncrements(a) + CountIncrements(b)
  {
    if b != [] {
      assert (a + b)[..|a + b| - 1] == a + b[..|b| - 1];
      CountIncrementsAppend(a, b[..|b| - 1]);
    } else {
      assert a + b == a;
    }
  }

  /** `GetAsync(counter)` over a source producing `source`. */
  method GetAsync<P>(counter: QueueCounter, source: seq<P>)
    returns (yielded: seq<P>, ghost events: seq<ProviderEvent<P>>)
    requires counter.Valid()
    modifies counter
    ensures counter.Valid()
    ensures yielded == source
    ensures counter.value == old(counter.value) + |source|
    ensures counter.increments == old(counter.increments) + |source|
    ensures counter.decrements == old(counter.decrements)
    ensures events == IncrementThenYield(source)
  {
    yielded, events := [], [];
    var i := 0;
    while i < |source|
      invariant 0 <= i <= |source|
      invariant counter.Valid()
      invariant yielded == source[..i]
      invariant events == IncrementThenYield(source[..i])
      invariant counter.value == old(counter.value) + i
      invariant counter.increments == old(counter.increments) + i
      invariant counter.decrements == old(counter.decrements)
    {
      counter.Increment();
      events := events + [CounterIncremented];
      yielded := yielded + [source[i]];
      events := events + [Yielded(source[i])];
      assert source[..i + 1][..i] == source[..i];
      i := i + 1;
    }
    assert source[..i] == source;
  }
}
