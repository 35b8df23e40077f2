/** Tr1ppy.System/Tr1ppy.System/Extensions/ResultCollectionsExtensions.cs:
    run an action on each item in order, stopping at the first fault. */
module ResultCollections {

  /** A fault-only result: success, or a fault. */
  datatype UnitResult<+F> = Succeed | Fail(fault: F)

  /** The index of the first item whose action fails, or the number of items
      when none does. */
  function FirstFailure<T, F>(items: seq<T>, action: T -> UnitResult<F>): (k: nat)
    ensures k <= |items|
    ensures forall j :: 0 <= j < k ==> action(items[j]).Succeed?
    ensures k < |items| ==> action(items[k]).Fail?
  {
    if items == [] then 0
    else if action(items[0]).Fail? then 0
    else 1 + FirstFailure(items[1..], action)
  }

  /** The result `ExecuteForEach` returns: the first fault, else success. */
  function ForEachResult<T, F>(items: seq<T>, action: T -> UnitResult<F>): UnitResult<F>
  {
    var k := FirstFailure(items, action);
    if k < |items| then Fail(action(items[k]).fault) else Succeed
  }

  /** The items whose action is invoked: every item up to and including the
      first failing one. */
  function Invoked<T, F>(items: seq<T>, action: T -> UnitResult<F>): seq<T>
  {
    var k := FirstFailure(items, action);
    if k < |items| then items[..k + 1] else items
  }

  /** Success exactly when every action succeeds, and then every item was
      handed to the action, in order; a failure carries the fault of the first
      failing item, and nothing after it was invoked. */
  lemma ForEachResultIff<T, F>(items: seq<T>, action: T -> UnitResult<F>)
    ensures ForEachResult(items, action).Succeed? <==> forall i :: 0 <= i < |items| ==> action(items[i]).Succeed?
    ensures ForEachResult(items, action).Succeed? ==> Invoked(items, action) == items
    ensures ForEachResult(items, action).Fail? ==>
      var invoked := Invoked(items, action);
      && |invoked| > 0
      && invoked == items[..|invoked|]
      && action(invoked[|invoked| - 1]) == ForEachResult(items, action)
      && forall j :: 0 <= j < |invoked| - 1 ==> action(invoked[j]).Succeed?
  {
  }

  /** `ExecuteForEach`: the loop, with the items it handed to the action. */
  method ExecuteForEach<T, F>(items: seq<T>, action: T -> UnitResult<F>)
    returns (r: UnitResult<F>, ghost invoked: seq<T>)
    ensures r == ForEachResult(items, action)
    ensures invoked == Invoked(items, action)
  {
    invoked := [];
    for i := 0 to |items|
      invariant invoked == items[..i]
      invariant forall j :: 0 <= j < i ==> action(items[j]).Succeed?
    {
      var result := action(items[i]);
      invoked := invoked + [items[i]];
      if result.Fail? {
        FirstFailureIs(items, action, i);
        return Fail(result.fault), invoked;
      }
    }
    FirstFailureIs(items, action, |items|);
    assert items[..|items|] == items;
    r := Succeed;
  }

  lemma {:induction false} FirstFailureIs<T, F>(items: seq<T>, action: T -> UnitResult<F>, k: nat)
    requires k <= |items|
    requires forall j :: 0 <= j < k ==> action(items[j]).Succeed?
    requires k < |items| ==> action(items[k]).Fail?
    ensures FirstFailure(items, action) == k
  {
    if items != [] && k > 0 {
      FirstFailureIs(items[1..], action, k - 1);
    }
  }

  /** `ExecuteForEachAsync`: each action is awaited before the next starts, so
      it has the result and the invocations of the synchronous loop. */
  method ExecuteForEachAsync<T, F>(items: seq<T>, action: T -> UnitResult<F>)
    returns (r: UnitResult<F>, ghost invoked: seq<T>)
    ensures r == ForEachResult(items, action)
    ensures invoked == Invoked(items, action)
  {
    r, invoked := ExecuteForEach(items, action);
  }
}
