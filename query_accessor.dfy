/** Queries/Tr1ppy.Queries/QueryAccessor.cs: routing payloads to queues by
    exact runtime type or by queue name. A queue is represented by the part
    the accessor reads: its name and its two subtype sets. */
module QueryAccessors {
  import opened Wrappers
  import opened TypeUniverse
  import opened ProccesableQueues

  datatype QueueDescriptor = QueueDescriptor(
    id: nat,
    name: string,
    includedSubTypes: set<TypeId>,
    excludedSubTypes: set<TypeId>)

  /** The types `InitializeDictionaries` registers a queue under: its included
      subtypes when there are any; none when it has only excluded subtypes;
      otherwise the payload type itself. */
  function RegisteredTypes(payloadType: TypeId, q: QueueDescriptor): set<TypeId>
  {
    if |q.includedSubTypes| > 0 then q.includedSubTypes
    else if |q.excludedSubTypes| > 0 then {}
    else {payloadType}
  }

  /** The reference definition of a per-type list: the queues registered under
      `t`, in the order they were given. */
  function QueuesFor(payloadType: TypeId, queues: seq<QueueDescriptor>, t: TypeId): (r: seq<QueueDescriptor>)
    ensures |r| <= |queues|
    ensures forall i :: 0 <= i < |r| ==> r[i] in queues && t in RegisteredTypes(payloadType, r[i])
  {
    if queues == [] then []
    else
      var init := QueuesFor(payloadType, queues[..|queues| - 1], t);
      var last := queues[|queues| - 1];
      if t in RegisteredTypes(payloadType, last) then init + [last] else init
  }

  /** Every queue registered under `t` is in `t`'s list. */
  lemma {:induction false} QueuesForComplete(payloadType: TypeId, queues: seq<QueueDescriptor>, t: TypeId, q: QueueDescriptor)
    requires q in queues && t in RegisteredTypes(payloadType, q)
    ensures q in QueuesFor(payloadType, queues, t)
  {
    var n := |queues|;
    if queues[n - 1] != q {
      assert q in queues[..n - 1] by {
        var i :| 0 <= i < n && queues[i] == q;
        assert queues[..n - 1][i] == q;
      }
      QueuesForComplete(payloadType, queues[..n - 1], t, q);
    }
  }

  /** A queue configured with excluded subtypes only is in no per-type list,
      so it can receive items by name alone. */
  lemma ExcludedOnlyQueueNotRoutedByType(payloadType: TypeId, queues: seq<QueueDescriptor>, q: QueueDescriptor, t: TypeId)
    requires q.includedSubTypes == {} && q.excludedSubTypes != {}
    ensures q !in QueuesFor(payloadType, queues, t)
  {
  }

  /** The name map after registering `queues` in order: each assignment
      replaces an earlier queue of the same name. */
  function NameMap(queues: seq<QueueDescriptor>): map<string, QueueDescriptor>
  {
    if queues == [] then map[]
    else NameMap(queues[..|queues| - 1])[queues[|queues| - 1].name := queues[|queues| - 1]]
  }

  /** No later queue has the same name as the one at `i`. */
  predicate LastWithName(queues: seq<QueueDescriptor>, i: nat)
    requires i < |queues|
  {
    forall j :: i < j < |queues| ==> queues[j].name != queues[i].name
  }

  /** Some queue has the name. */
  predicate HasName(queues: seq<QueueDescriptor>, name: string) {
    exists i :: 0 <= i < |queues| && queues[i].name == name
  }

  /** A name is mapped exactly when some queue has it. */
  lemma {:induction false} NameMapDomain(queues: seq<QueueDescriptor>)
    ensures forall name :: name in NameMap(queues) <==> HasName(queues, name)
  {
    if queues != [] {
      var n := |queues|;
      var init := queues[..n - 1];
      NameMapDomain(init);
      forall name | name in NameMap(queues)
        ensures HasName(queues, name)
      {
        if name != queues[n - 1].name {
          assert HasName(init, name);
          var i :| 0 <= i < |init| && init[i].name == name;
          assert queues[i].name == name;
        }
      }
      forall name | HasName(queues, name)
        ensures name in NameMap(queues)
      {
        var i :| 0 <= i < n && queues[i].name == name;
        if i < n - 1 {
          assert init[i].name == name;
        }
      }
    }
  }

  /** A name maps to the last queue that has it. */
  lemma {:induction false} NameMapLastWins(queues: seq<QueueDescriptor>)
    ensures forall i :: 0 <= i < |queues| && LastWithName(queues, i) ==>
      queues[i].name in NameMap(queues) && NameMap(queues)[queues[i].name] == queues[i]
  {
    if queues != [] {
      var n := |queues|;
      var init := queues[..n - 1];
      NameMapLastWins(init);
      forall i | 0 <= i < n && LastWithName(queues, i)
        ensures queues[i].name in NameMap(queues) && NameMap(queues)[queues[i].name] == queues[i]
      {
        if i < n - 1 {
          assert init[i] == queues[i];
          assert LastWithName(init, i) by {
            forall j | i < j < n - 1 ensures init[j].name != init[i].name {
              assert init[j] == queues[j];
            }
          }
        }
      }
    }
  }

  /** The list stored under `t`, or empty when `t` has no entry. */
  function TypeEntry(m: map<TypeId, seq<QueueDescriptor>>, t: TypeId): seq<QueueDescriptor>
  {
    if t in m then m[t] else []
  }

  class QueryAccessor {
    const payloadType: TypeId
    var queuesByName: map<string, QueueDescriptor>
    var queuesByType: map<TypeId, seq<QueueDescriptor>>
    /** The queues the accessor was built from, in order. */
    ghost const queues: seq<QueueDescriptor>

    ghost predicate Valid()
      reads this
    {
      && queuesByName == NameMap(queues)
      && (forall t :: TypeEntry(queuesByType, t) == QueuesFor(payloadType, queues, t))
      && (forall t :: t in queuesByType ==> queuesByType[t] != [])
    }

    /** The constructor taking the queues, which runs `InitializeDictionaries`. */
    constructor (payloadType: TypeId, queues: seq<QueueDescriptor>)
      ensures Valid()
      ensures this.payloadType == payloadType && this.queues == queues
    {
      this.payloadType := payloadType;
      this.queues := queues;
      queuesByName := map[];
      queuesByType := map[];
      new;
      var i := 0;
      while i < |queues|
        invariant i <= |queues|
        invariant queuesByName == NameMap(queues[..i])
        invariant forall t :: TypeEntry(queuesByType, t) == QueuesFor(payloadType, queues[..i], t)
        invariant forall t :: t in queuesByType ==> queuesByType[t] != []
      {
        var queue := queues[i];
        assert queues[..i + 1][..i] == queues[..i];
        queuesByName := queuesByName[queue.name := queue];
        RegisterUnderEach(RegisteredTypes(payloadType, queue), queue);
        forall t ensures TypeEntry(queuesByType, t) == QueuesFor(payloadType, queues[..i + 1], t) {
          assert queues[..i + 1][i] == queue;
        }
        i := i + 1;
      }
      assert queues[..i] == queues;
    }

    /** The inner loops of `InitializeDictionaries`: register the queue under
        each of the given types. */
    method RegisterUnderEach(types: set<TypeId>, queue: QueueDescriptor)
      requires forall t :: t in queuesByType ==> queuesByType[t] != []
      modifies this`queuesByType
      ensures forall t :: t in queuesByType ==> queuesByType[t] != []
      ensures forall t ::
        TypeEntry(queuesByType, t) == TypeEntry(old(queuesByType), t) + (if t in types then [queue] else [])
    {
      var remaining := types;
      while remaining != {}
        invariant remaining <= types
        invariant forall t :: t in queuesByType ==> queuesByType[t] != []
        invariant forall t ::
          TypeEntry(queuesByType, t) == TypeEntry(old(queuesByType), t) + (if t in types - remaining then [queue] else [])
        decreases |remaining|
      {
        var t :| t in remaining;
        RegisterType(t, queue);
        remaining := remaining - {t};
      }
    }

    /** `RegisterType`: append the queue to the type's list, creating the list
        on first use. */
    method RegisterType(t: TypeId, queue: QueueDescriptor)
      modifies this`queuesByType
      ensures queuesByType == old(queuesByType)[t := TypeEntry(old(queuesByType), t) + [queue]]
    {
      var list := if t in queuesByType then queuesByType[t] else [];
      queuesByType := queuesByType[t := list + [queue]];
    }

    /** `EnqueueAsync(payload)`: the queue a payload is written to, if any: the
        first queue registered under its exact runtime type. */
    function RouteByType(payload: Payload): (target: Option<QueueDescriptor>)
      reads this
      requires Valid()
      ensures payload.Null? ==> target.None?
      ensures !payload.Null? ==>
        var candidates := QueuesFor(payloadType, queues, payload.runtimeType);
        target == if candidates == [] then None else Some(candidates[0])
    {
      if payload.Null? then None
      else if payload.runtimeType in queuesByType then
        assert queuesByType[payload.runtimeType] == QueuesFor(payloadType, queues, payload.runtimeType) by {
          assert TypeEntry(queuesByType, payload.runtimeType) == queuesByType[payload.runtimeType];
        }
        Some(queuesByType[payload.runtimeType][0])
      else
        assert TypeEntry(queuesByType, payload.runtimeType) == [];
        None
    }

    /** `EnqueueAsync(payload, queueName)`: the queue of that name, for a
        non-null payload. */
    function RouteByName(payload: Payload, queueName: string): (target: Option<QueueDescriptor>)
      reads this
      requires Valid()
      ensures target.Some? <==> !payload.Null? && HasName(queues, queueName)
      ensures target.Some? ==> target.value.name == queueName && target.value in queues
      ensures !payload.Null? ==>
        forall i :: 0 <= i < |queues| && queues[i].name == queueName && LastWithName(queues, i) ==> target == Some(queues[i])
    {
      NameMapDomain(queues);
      NameMapLastWins(queues);
      NameMapValues(queues);
      if payload.Null? || queueName !in queuesByName then None
      else Some(queuesByName[queueName])
    }
  }

  /** Each entry of the name map is one of the queues, of that name. */
  lemma {:induction false} NameMapValues(queues: seq<QueueDescriptor>)
    ensures forall name :: name in NameMap(queues) ==>
      NameMap(queues)[name].name == name && NameMap(queues)[name] in queues
  {
    if queues != [] {
      var n := |queues|;
      NameMapValues(queues[..n - 1]);
    }
  }
}
