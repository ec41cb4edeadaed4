/**
 * The .NET collections the engine mutates: `ConcurrentQueue<T>` as a class whose contents
 * are a sequence, head first. Calls are taken one at a time; atomicity is not modelled.
 */
module Queues {
  import opened Wrappers

  class ConcurrentQueue<T> {
    /** The queued items, head first. */
    var items: seq<T>

    constructor()
      ensures items == []
    {
      items := [];
    }

    function Count(): nat
      reads this
    {
      |items|
    }

    function IsEmpty(): bool
      reads this
    {
      |items| == 0
    }

    /** `TryPeek`: the head, if any. */
    function TryPeek(): (r: Option<T>)
      reads this
      ensures r.Some? <==> items != []
      ensures r.Some? ==> r.value == items[0]
    {
      if |items| == 0 then None else Some(items[0])
    }

    method Enqueue(x: T)
      modifies this
      ensures items == old(items) + [x]
    {
      items := items + [x];
    }

    /** `TryDequeue`: takes the head off, or reports that there is none. */
    method TryDequeue() returns (r: Option<T>)
      modifies this
      ensures old(items) == [] ==> r == None && items == []
      ensures old(items) != [] ==> r == Some(old(items)[0]) && items == old(items)[1..]
    {
      if |items| == 0 {
        r := None;
      } else {
        r := Some(items[0]);
        items := items[1..];
      }
    }

    method Clear()
      modifies this
      ensures items == []
    {
      items := [];
    }
  }
}
