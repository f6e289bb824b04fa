/** The bounded queue between the thread that reads the source file and the upload workers
    (`BoundedQueue` in src/push/push_engine.cpp). Each method is one critical section; a caller that
    the source would let wait on a condition variable gets `Blocked` and has changed nothing. */
module BoundedQueues {

  datatype Queue<T> = Queue(items: seq<T>, closed: bool, cancelled: bool, capacity: nat)

  datatype Outcome<T> = Blocked | Refused | Pushed | Popped(item: T) | Ended

  predicate CanPush<T>(q: Queue<T>) {
    q.cancelled || q.closed || |q.items| < q.capacity
  }

  predicate CanPop<T>(q: Queue<T>) {
    q.cancelled || q.closed || |q.items| > 0
  }

  /** Capacity is respected, and cancelling closes and empties the queue. */
  predicate ValidQueue<T>(q: Queue<T>) {
    && 0 < q.capacity && |q.items| <= q.capacity
    && (q.cancelled ==> q.closed && |q.items| == 0)
  }

  function AfterPush<T>(q: Queue<T>, item: T): Queue<T> {
    if q.cancelled || q.closed then q else q.(items := q.items + [item])
  }

  function AfterPop<T>(q: Queue<T>): Queue<T> {
    if |q.items| == 0 then q else q.(items := q.items[1..])
  }

  function AfterClose<T>(q: Queue<T>): Queue<T> {
    q.(closed := true)
  }

  function AfterCancel<T>(q: Queue<T>): Queue<T> {
    q.(items := [], closed := true, cancelled := true)
  }

  class BoundedQueue<T> {
    const capacity: nat
    var items: seq<T>
    var closed: bool
    var cancelled: bool

    function Contents(): Queue<T>
      reads this
    {
      Queue(items, closed, cancelled, capacity)
    }

    constructor (capacity: nat)
      requires capacity > 0
      ensures Contents() == Queue([], false, false, capacity) && ValidQueue(Contents())
    {
      this.capacity := capacity;
      items, closed, cancelled := [], false, false;
    }

    method Push(item: T) returns (outcome: Outcome<T>)
      requires ValidQueue(Contents())
      modifies this
      ensures ValidQueue(Contents())
      ensures outcome == if !CanPush(old(Contents())) then Blocked else if old(closed) then Refused else Pushed
      ensures Contents() == if outcome.Blocked? then old(Contents()) else AfterPush(old(Contents()), item)
    {
      if !(cancelled || closed || |items| < capacity) {
        return Blocked;
      }
      if cancelled || closed {
        return Refused;
      }
      items := items + [item];
      return Pushed;
    }

    /** A closed queue is drained before it ends. */
    method Pop() returns (outcome: Outcome<T>)
      requires ValidQueue(Contents())
      modifies this
      ensures ValidQueue(Contents())
      ensures outcome == if !CanPop(old(Contents())) then Blocked else if |old(items)| == 0 then Ended else Popped(old(items)[0])
      ensures Contents() == AfterPop(old(Contents()))
    {
      if !(cancelled || closed || |items| > 0) {
        return Blocked;
      }
      if |items| == 0 {
        return Ended;
      }
      outcome := Popped(items[0]);
      items := items[1..];
    }

    method Close()
      requires ValidQueue(Contents())
      modifies this
      ensures ValidQueue(Contents()) && Contents() == AfterClose(old(Contents()))
    {
      closed := true;
    }

    method Cancel()
      requires ValidQueue(Contents())
      modifies this
      ensures ValidQueue(Contents()) && Contents() == AfterCancel(old(Contents()))
    {
      items, closed, cancelled := [], true, true;
    }
  }
}
