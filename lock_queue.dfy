/**
 * Utils/ApiClientLockQueue.cs: a FIFO queue of waiters in front of the one ApiClient. Each
 * GetLock enqueues a completion source and completes it at once when it is the head; each
 * release dequeues the head and completes the next one. Completion sources are named here by
 * tickets, numbered in enqueue order; `completed` lists those set so far, in the order they were set.
 */
module LockQueue {
  import opened Wrappers

  datatype QueueState = QueueState(waiting: seq<nat>, completed: seq<nat>, nextTicket: nat)

  /** The tickets lo, lo + 1, ..., hi - 1. */
  function Range(lo: nat, hi: nat): (r: seq<nat>)
    ensures |r| == if lo <= hi then hi - lo else 0
    ensures forall i :: 0 <= i < |r| ==> r[i] == lo + i
  {
    seq(if lo <= hi then hi - lo else 0, i requires 0 <= i => lo + i)
  }

  /** How many waiters have been dequeued. */
  function Released(q: QueueState): int {
    q.nextTicket - |q.waiting|
  }

  /**
   * The states reachable from the empty queue: the waiting tickets are the last ones issued,
   * and exactly the dequeued ones plus the head have been completed.
   */
  predicate Consistent(q: QueueState) {
    |q.waiting| <= q.nextTicket
    && q.waiting == Range(Released(q), q.nextTicket)
    && q.completed == Range(0, Released(q) + if q.waiting == [] then 0 else 1)
  }

  /** GetLock: enqueue a fresh waiter; complete it when `Peek` finds it at the head. */
  function Enqueue(q: QueueState): (QueueState, bool) {
    var t := q.nextTicket;
    var w := q.waiting + [t];
    var granted := w[0] == t;
    (QueueState(w, q.completed + (if granted then [t] else []), t + 1), granted)
  }

  /** ReleaseLock: `Dequeue` (which throws on an empty queue), then complete the new head. */
  function Dequeue(q: QueueState): Result<QueueState> {
    if q.waiting == [] then Err(InvalidOperation)
    else
      var w := q.waiting[1..];
      Ok(QueueState(w, q.completed + (if w != [] then [w[0]] else []), q.nextTicket))
  }

  /** A new waiter is granted at once exactly when the queue was empty, and the queue stays consistent. */
  lemma EnqueueSpec(q: QueueState)
    requires Consistent(q)
    ensures Enqueue(q).1 <==> q.waiting == []
    ensures Consistent(Enqueue(q).0)
    ensures Enqueue(q).0.waiting == q.waiting + [q.nextTicket]
  {
    var (q', granted) := Enqueue(q);
    if q.waiting != [] {
      assert q.waiting[0] < q.nextTicket;
    }
    assert Released(q') == Released(q);
    assert q'.waiting == Range(Released(q'), q'.nextTicket);
    assert q'.completed == Range(0, Released(q') + 1);
  }

  /** Releasing removes exactly the head and grants exactly the next waiter, if any. */
  lemma DequeueSpec(q: QueueState)
    requires Consistent(q)
    ensures Dequeue(q).Err? <==> q.waiting == []
    ensures Dequeue(q).Err? ==> Dequeue(q).error == InvalidOperation
    ensures Dequeue(q).Ok? ==> Consistent(Dequeue(q).value)
    ensures Dequeue(q).Ok? ==> Dequeue(q).value.waiting == q.waiting[1..]
  {
    if q.waiting != [] {
      var q' := Dequeue(q).value;
      assert Released(q') == Released(q) + 1;
      assert q'.waiting == Range(Released(q'), q'.nextTicket);
      if q'.waiting != [] {
        assert q'.waiting[0] == Released(q) + 1;
      }
      assert q'.completed == Range(0, Released(q') + if q'.waiting == [] then 0 else 1);
    }
  }

  /** Only the head of the queue has been granted: at most one lock is held at a time. */
  lemma SingleHolder(q: QueueState)
    requires Consistent(q)
    ensures q.waiting != [] ==> q.waiting[0] in q.completed
    ensures forall i :: 0 < i < |q.waiting| ==> q.waiting[i] !in q.completed
  {
    if q.waiting != [] {
      assert q.completed[Released(q)] == q.waiting[0];
    }
  }

  /** Grants happen in enqueue order: the k-th completion is the k-th ticket issued. */
  lemma GrantsInOrder(q: QueueState)
    requires Consistent(q)
    ensures forall k :: 0 <= k < |q.completed| ==> q.completed[k] == k
    ensures |q.completed| <= q.nextTicket
  {
  }

  /** Once the last holder releases, the next GetLock is granted at once. */
  lemma ReleaseThenAcquire(q: QueueState)
    requires Consistent(q) && |q.waiting| == 1
    ensures Dequeue(q).Ok? && Enqueue(Dequeue(q).value).1
  {
    DequeueSpec(q);
    EnqueueSpec(Dequeue(q).value);
  }

  class ApiClientLockQueue {
    var waiting: seq<nat>
    var completed: seq<nat>
    var nextTicket: nat

    function State(): QueueState
      reads this
    {
      QueueState(waiting, completed, nextTicket)
    }

    constructor ()
      ensures State() == QueueState([], [], 0) && Consistent(State())
    {
      waiting, completed, nextTicket := [], [], 0;
    }

    /** GetLock: the returned lock owns the new ticket; `granted` says whether it was completed at once. */
    method GetLock() returns (lock: Lock, granted: bool)
      modifies this
      ensures (State(), granted) == Enqueue(old(State()))
      ensures fresh(lock) && lock.queue == this && lock.ticket == old(nextTicket) && !lock.disposed
    {
      var t := nextTicket;
      lock := new Lock(this, t);
      waiting := waiting + [t];
      nextTicket := nextTicket + 1;
      granted := waiting[0] == t;
      if granted {
        completed := completed + [t];
      }
      assert State() == Enqueue(old(State())).0;
    }

    method ReleaseLock() returns (r: Result<()>)
      modifies this
      ensures r.Err? <==> Dequeue(old(State())).Err?
      ensures r.Err? ==> r.error == InvalidOperation && State() == old(State())
      ensures r.Ok? ==> State() == Dequeue(old(State())).value
    {
      if waiting == [] {
        return Err(InvalidOperation);
      }
      waiting := waiting[1..];
      if waiting != [] {
        completed := completed + [waiting[0]];
      }
      r := Ok(());
    }
  }

  /** IApiClientLockQueue.Lock: releases its queue on the first dispose only. */
  class Lock {
    var disposed: bool
    const queue: ApiClientLockQueue
    const ticket: nat

    constructor (queue: ApiClientLockQueue, ticket: nat)
      ensures this.queue == queue && this.ticket == ticket && !disposed
    {
      this.queue := queue;
      this.ticket := ticket;
      disposed := false;
    }

    /** DisposeAsync: the Interlocked.Exchange lets only the first call run the release. */
    method DisposeAsync() returns (r: Result<()>)
      modifies this, queue
      ensures disposed
      ensures old(disposed) ==> r == Ok(()) && queue.State() == old(queue.State())
      ensures !old(disposed) ==> (r.Err? <==> Dequeue(old(queue.State())).Err?)
      ensures !old(disposed) && r.Ok? ==> queue.State() == Dequeue(old(queue.State())).value
      ensures !old(disposed) && r.Err? ==> queue.State() == old(queue.State())
    {
      if disposed {
        return Ok(());
      }
      disposed := true;
      r := queue.ReleaseLock();
    }
  }

  /**
   * `await using var lock = await GetLock()`: the lock is disposed on every exit of the scope.
   * On a queue nobody else holds, a scoped use leaves the queue empty again with one more grant.
   */
  method Scoped(queue: ApiClientLockQueue) returns (granted: bool)
    requires Consistent(queue.State()) && queue.waiting == []
    modifies queue
    ensures granted
    ensures queue.waiting == [] && Consistent(queue.State())
    ensures queue.completed == old(queue.completed) + [old(queue.nextTicket)]
  {
    var lock;
    lock, granted := queue.GetLock();
    EnqueueSpec(old(queue.State()));
    DequeueSpec(queue.State());
    var released := lock.DisposeAsync();
  }
}
