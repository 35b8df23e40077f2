/** Queries/Tr1ppy.Queries.Abstractions/QueueCounter.cs: the pending-item
    counter shared by a queue, its providers and its consumer. Atomicity is
    not modelled; the counter is an unbounded integer. */
module QueueCounters {

  class QueueCounter {
    var value: int
    /** How many times `Increment` and `Decrement` have run on this counter. */
    ghost var increments: nat
    ghost var decrements: nat

    ghost predicate Valid()
      reads this
    {
      value == increments - decrements
    }

    constructor ()
      ensures Valid()
      ensures value == 0 && increments == 0 && decrements == 0
    {
      value := 0;
      increments, decrements := 0, 0;
    }

    /** `Value`: the net number of increments. */
    function Value(): (v: int)
      reads this
      requires Valid()
      ensures v == increments - decrements
    {
      value
    }

    method Increment()
      requires Valid()
      modifies this
      ensures Valid()
      ensures value == old(value) + 1
      ensures increments == old(increments) + 1 && decrements == old(decrements)
    {
      value := value + 1;
      increments := increments + 1;
    }

    /** No lower bound: the value may become negative. */
    method Decrement()
      requires Valid()
      modifies this
      ensures Valid()
      ensures value == old(value) - 1
      ensures decrements == old(decrements) + 1 && increments == old(increments)
    {
      value := value - 1;
      decrements := decrements + 1;
    }
  }

  /** A fresh counter decremented once reads -1: nothing keeps it at or above zero. */
  method DecrementBelowZero() returns (c: QueueCounter)
    ensures fresh(c) && c.Valid() && c.value == -1
  {
    c := new QueueCounter();
    c.Decrement();
  }
}
