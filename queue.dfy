/** The queue shared by the web endpoint, which puts payloads, and the worker thread,
    which takes them. Blocking and locking are not modelled: the model is sequential. */
module Queues {

  /** `Queue.Queue` as the worker uses it: `put`, `get` and `task_done`. */
  class JobQueue<T> {
    var items: seq<T>
    var unfinished: nat

    constructor ()
      ensures items == [] && unfinished == 0
    {
      items := [];
      unfinished := 0;
    }

    method Put(item: T)
      modifies this
      ensures items == old(items) + [item] && unfinished == old(unfinished) + 1
    {
      items := items + [item];
      unfinished := unfinished + 1;
    }

    /** `get` blocks while the queue is empty; the model only calls it on a non-empty one. */
    method Get() returns (item: T)
      requires items != []
      modifies this
      ensures item == old(items)[0] && items == old(items)[1..] && unfinished == old(unfinished)
    {
      item := items[0];
      items := items[1..];
    }

    /** `ok` is false where Python raises ValueError: more `task_done` calls than `put`s. */
    method TaskDone() returns (ok: bool)
      modifies this
      ensures ok <==> old(unfinished) > 0
      ensures unfinished == if ok then old(unfinished) - 1 else old(unfinished)
      ensures items == old(items)
    {
      ok := unfinished > 0;
      if ok {
        unfinished := unfinished - 1;
      }
    }
  }
}
