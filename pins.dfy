/** PinCollection: an insertion-ordered sequence of pin handles of one
    direction, owned by an element. */
module Pins {
  import opened Types

  /** The events produced by flushing `pins` one after another, in order. */
  function FlushEvents(direction: Direction, pins: seq<PinId>): (events: seq<Event>)
    ensures |events| == |pins|
    ensures forall i :: 0 <= i < |pins| ==> events[i] == Flushed(direction, pins[i])
  {
    if pins == [] then []
    else FlushEvents(direction, pins[..|pins| - 1]) + [Flushed(direction, pins[|pins| - 1])]
  }

  /** The bounds check of Item exactly as written: it rejects a negative
      index and an index greater than the count, and nothing else. */
  function ItemGuardRejects(index: int, count: nat): (rejects: bool)
    ensures !rejects <==> 0 <= index <= count
  {
    index < 0 || index > count
  }

  /** The guard lets the one-past-the-end index through, whatever the count. */
  lemma ItemGuardAdmitsCount(count: nat)
    ensures !ItemGuardRejects(count, count)
  {
  }

  /** What a lookup by index produces. `ReadPastEnd` stands for reading the
      element one past the end of the vector, which C++ leaves undefined. */
  datatype Lookup = Found(pin: PinId) | ArgumentOutOfRange | ReadPastEnd

  class PinCollection {
    /** Whether this is an InPinCollection or an OutPinCollection. */
    const direction: Direction
    /** The pins, in the order they were added. */
    var pins: seq<PinId>

    constructor (direction: Direction)
      ensures this.direction == direction && pins == []
    {
      this.direction := direction;
      pins := [];
    }

    /** Appends a pin at the end; earlier pins keep their indices. */
    method Add(pin: PinId)
      modifies this
      ensures pins == old(pins) + [pin]
    {
      pins := pins + [pin];
    }

    /** Empties the collection. */
    method Clear()
      modifies this
      ensures pins == []
    {
      pins := [];
    }

    /** The number of pins added since construction or the last Clear. */
    function Count(): (n: int)
      reads this
      ensures n == |pins|
    {
      |pins|
    }

    /** Item as written: the guard uses `index > Count`, so `index == Count`
        passes the check and the vector is read one past its end. */
    method Item(index: int) returns (r: Lookup)
      ensures r == ArgumentOutOfRange <==> index < 0 || index > |pins|
      ensures r == ReadPastEnd <==> index == |pins|
      ensures 0 <= index < |pins| ==> r == Found(pins[index])
    {
      if ItemGuardRejects(index, Count()) {
        return ArgumentOutOfRange;
      }
      if index == |pins| {
        return ReadPastEnd;
      }
      return Found(pins[index]);
    }

    /** Item with the bounds check the collection evidently intends:
        every index outside [0, Count) is rejected. */
    method ItemChecked(index: int) returns (r: Lookup)
      ensures r.Found? <==> 0 <= index < |pins|
      ensures r.Found? ==> r.pin == pins[index]
      ensures !r.Found? ==> r == ArgumentOutOfRange
    {
      if index < 0 || index >= Count() {
        return ArgumentOutOfRange;
      }
      return Found(pins[index]);
    }

    /** Flushes every pin once, in insertion order, skipping none; returns
        the flush events in the order they happened. */
    method Flush() returns (events: seq<Event>)
      ensures events == FlushEvents(direction, pins)
    {
      events := [];
      for i := 0 to |pins|
        invariant events == FlushEvents(direction, pins[..i])
      {
        assert pins[..i + 1][..i] == pins[..i];
        events := events + [Flushed(direction, pins[i])];
      }
      assert pins[..|pins|] == pins;
    }
  }
}
