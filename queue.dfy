/** The FIFO that hands collected samples from the sampling tasks to the log
    consumer (src/queue.rs). The mutex and the condition variable are not
    modelled: operations are taken one at a time, and the consumer's wait
    becomes the precondition that the queue holds an item. */
module Queue {
  import opened Wrappers

  /** What a collector produces for one cycle. The readings themselves
      (`CpuInfo`, `MemoryInfo`, `IOInfo`) belong to the collectors and are
      carried here as their rendered text. */
  datatype QueueItem =
    | CPU(cpuInfo: string)
    | Memory(memInfo: string)
    | IO(ioInfo: string)
    | Err(errInfo: string)

  class Queue {
    /** The `VecDeque`, head first. */
    var items: seq<QueueItem>

    constructor ()
      ensures items == []
    {
      items := [];
    }

    /** `push_back` under the lock; the waiter is then notified. */
    method Enqueue(item: QueueItem)
      modifies this
      ensures items == old(items) + [item]
      ensures |items| == |old(items)| + 1
    {
      items := items + [item];
    }

    /** `pop_front` once the queue is non-empty. */
    method Dequeue() returns (r: Option<QueueItem>)
      requires items != []
      modifies this
      ensures r == Some(old(items)[0])
      ensures items == old(items)[1..]
    {
      r := Some(items[0]);
      items := items[1..];
    }

    method IsEmpty() returns (empty: bool)
      ensures empty <==> |items| == 0
    {
      empty := items == [];
    }
  }

  /** Items enqueued one after another come out in the same order: a queue
      that held `before` and then received `es` yields `before` and then `es`. */
  method EnqueueThenDrain(q: Queue, es: seq<QueueItem>) returns (out: seq<QueueItem>)
    modifies q
    ensures out == old(q.items) + es
    ensures q.items == []
  {
    for i := 0 to |es|
      invariant q.items == old(q.items) + es[..i]
    {
      q.Enqueue(es[i]);
      assert es[..i + 1] == es[..i] + [es[i]];
    }
    assert es[..|es|] == es;
    out := [];
    ghost var all := q.items;
    while true
      invariant out + q.items == all
      decreases |q.items|
    {
      var empty := q.IsEmpty();
      if empty {
        break;
      }
      var item := q.Dequeue();
      out := out + [item.value];
    }
  }
}
