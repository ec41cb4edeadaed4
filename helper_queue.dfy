/**
 * Helper.cs: the two queue helpers that drain a `ConcurrentQueue` and rebuild it,
 * `ConcurrentQueueAddToFront` and `ConcurrentQueueTryRemoveLast`.
 */
module HelperQueue {
  import opened Wrappers
  import opened Queues

  /** The sequence back to front. */
  function Reverse<T>(s: seq<T>): (r: seq<T>)
    ensures |r| == |s|
    ensures multiset(r) == multiset(s)
    decreases |s|
  {
    if |s| == 0 then []
    else
      assert s == [s[0]] + s[1..];
      Reverse(s[1..]) + [s[0]]
  }

  /** Position `i` of the reversal holds the item `i` places from the end. */
  lemma {:induction false} ReverseIndex<T>(s: seq<T>)
    ensures forall i :: 0 <= i < |s| ==> Reverse(s)[i] == s[|s| - 1 - i]
    decreases |s|
  {
    if |s| > 0 {
      ReverseIndex(s[1..]);
    }
  }

  lemma ReverseReverse<T>(s: seq<T>)
    ensures Reverse(Reverse(s)) == s
  {
    ReverseIndex(s);
    ReverseIndex(Reverse(s));
  }

  /** Proof step: regrouping the rebuilt queue in the loop of `AddToFront`. */
  lemma ConcatAssoc<T>(a: seq<T>, b: seq<T>, c: seq<T>)
    ensures a + b + c == a + (b + c)
  {
  }

  /** Reversing `s[k - 1..]` puts `s[k - 1]` after the reversal of `s[k..]`. */
  lemma ReverseSuffixStep<T>(s: seq<T>, k: nat)
    requires 0 < k <= |s|
    ensures Reverse(s[k - 1..]) == Reverse(s[k..]) + [s[k - 1]]
  {
    assert s[k - 1..][1..] == s[k..];
  }

  /**
   * The `while (queue.TryDequeue(out var x))` loop both helpers open with: every item is taken
   * off the queue and appended to a local collection, head first.
   */
  method DrainAll<T>(queue: ConcurrentQueue<T>) returns (drained: seq<T>)
    modifies queue
    ensures drained == old(queue.items) && queue.items == []
  {
    drained := [];
    var next := queue.TryDequeue();
    while next.Some?
      invariant next.Some? ==> old(queue.items) == drained + [next.value] + queue.items
      invariant next.None? ==> old(queue.items) == drained && queue.items == []
      decreases |queue.items| + (if next.Some? then 1 else 0)
    {
      drained := drained + [next.value];
      ghost var rest := queue.items;
      next := queue.TryDequeue();
      assert rest != [] ==> rest == [rest[0]] + rest[1..];
    }
  }

  /**
   * `ConcurrentQueueAddToFront`: every item is dequeued onto a stack, the new item is enqueued,
   * then the stack is popped back into the queue. Popping reverses the order, so the old
   * contents come back after the new item BACK TO FRONT.
   */
  method AddToFront<T>(queue: ConcurrentQueue<T>, item: T)
    modifies queue
    ensures queue.items == [item] + Reverse(old(queue.items))
  {
    var stack := DrainAll(queue);  // the top of the stack is its last element
    ghost var q0 := stack;
    queue.Enqueue(item);
    while |stack| > 0
      invariant stack == q0[..|stack|]
      invariant queue.items == [item] + Reverse(q0[|stack|..])
      decreases |stack|
    {
      var k := |stack|;
      var top := stack[k - 1];
      ReverseSuffixStep(q0, k);
      ConcatAssoc([item], Reverse(q0[k..]), [top]);
      stack := stack[..k - 1];
      queue.Enqueue(top);
    }
    assert q0[0..] == q0;
  }

  /** After `AddToFront` the queue is one longer and holds the old items plus the new one. */
  lemma AddToFrontCounts<T>(q: seq<T>, item: T)
    ensures |[item] + Reverse(q)| == |q| + 1
    ensures multiset([item] + Reverse(q)) == multiset(q) + multiset{item}
    ensures ([item] + Reverse(q))[0] == item
  {
  }

  /** Two items come back swapped behind the new one: the old order is not kept. */
  lemma AddToFrontSwapsTwo<T>(a: T, b: T, item: T)
    ensures [item] + Reverse([a, b]) == [item, b, a]
  {
    assert [a, b][1..] == [b];
  }

  /**
   * `ConcurrentQueueTryRemoveLast`: drains the queue into a list, drops the list's last element
   * if there is one, and enqueues the rest again in order.
   */
  method TryRemoveLast<T>(queue: ConcurrentQueue<T>) returns (itemRemoved: bool)
    modifies queue
    ensures itemRemoved <==> old(queue.items) != []
    ensures itemRemoved ==> queue.items == old(queue.items)[..|old(queue.items)| - 1]
    ensures !itemRemoved ==> queue.items == []
  {
    var tempList := DrainAll(queue);
    itemRemoved := false;
    if |tempList| > 0 {
      tempList := tempList[..|tempList| - 1];
      itemRemoved := true;
    }
    var i := 0;
    while i < |tempList|
      invariant 0 <= i <= |tempList|
      invariant queue.items == tempList[..i]
    {
      queue.Enqueue(tempList[i]);
      assert tempList[..i + 1] == tempList[..i] + [tempList[i]];
      i := i + 1;
    }
    assert tempList[..i] == tempList;
  }
}
