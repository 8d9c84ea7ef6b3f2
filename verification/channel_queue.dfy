/**
 * The in-memory message queue: a buffered channel of fixed capacity that can
 * be closed once. A `Pop` that would block (empty and still open) is not
 * modelled; it is ruled out by its precondition.
 */
module ChannelQueue {
  import opened Wrappers

  const QueueFull := "队列已满"
  const QueueClosed := "消息队列channel已关闭"

  datatype Queue<T> = Queue(buffer: seq<T>, capacity: nat, closed: bool)

  /** The buffer never holds more than the capacity. */
  predicate Valid<T>(q: Queue<T>) {
    |q.buffer| <= q.capacity
  }

  /** `NewChannelQueue`: `make` refuses a negative capacity, so none is accepted. */
  function NewChannelQueue<T>(cap: int): (q: Queue<T>)
    requires cap >= 0
    ensures q.buffer == [] && q.capacity == cap && !q.closed && Valid(q)
  {
    Queue([], cap, false)
  }

  /**
   * `Push`: a non-blocking send. It buffers the message when there is room and
   * otherwise reports the queue full and leaves it as it was. Sending on a
   * closed channel panics, so the queue must be open.
   */
  function Push<T>(q: Queue<T>, msg: T): (r: (Queue<T>, Option<string>))
    requires !q.closed
    ensures r.1.None? <==> |q.buffer| < q.capacity
    ensures r.1.None? ==> r.0 == q.(buffer := q.buffer + [msg])
    ensures r.1.Some? ==> r.0 == q && r.1.value == QueueFull
    ensures Valid(q) ==> Valid(r.0)
  {
    if |q.buffer| < q.capacity then (q.(buffer := q.buffer + [msg]), None)
    else (q, Some(QueueFull))
  }

  /**
   * `Pop`: the oldest buffered message; once the queue is closed and drained,
   * the zero message and the closed error. An open empty queue would block.
   */
  function Pop<T>(q: Queue<T>, zero: T): (r: (Queue<T>, T, Option<string>))
    requires |q.buffer| > 0 || q.closed
    ensures |q.buffer| > 0 ==> r == (q.(buffer := q.buffer[1..]), q.buffer[0], None)
    ensures |q.buffer| == 0 ==> r == (q, zero, Some(QueueClosed))
    ensures Valid(q) ==> Valid(r.0)
  {
    if |q.buffer| > 0 then (q.(buffer := q.buffer[1..]), q.buffer[0], None)
    else (q, zero, Some(QueueClosed))
  }

  /** `Close`: closing twice panics, so the queue must be open. */
  function Close<T>(q: Queue<T>): (r: Queue<T>)
    requires !q.closed
    ensures r.closed && r.buffer == q.buffer && r.capacity == q.capacity
  {
    q.(closed := true)
  }

  /** Pushes every message in turn; the messages refused are reported by count. */
  function PushAll<T>(q: Queue<T>, msgs: seq<T>): (r: (Queue<T>, nat))
    requires !q.closed
    ensures !r.0.closed && r.0.capacity == q.capacity
    decreases |msgs|
  {
    if msgs == [] then (q, 0)
    else
      var step := Push(q, msgs[0]);
      var rest := PushAll(step.0, msgs[1..]);
      (rest.0, rest.1 + (if step.1.Some? then 1 else 0))
  }

  /** Pops `n` messages, in the order they come out. */
  function PopN<T>(q: Queue<T>, n: nat, zero: T): (r: (Queue<T>, seq<T>))
    requires n <= |q.buffer|
    ensures |r.1| == n
    decreases n
  {
    if n == 0 then (q, [])
    else
      var step := Pop(q, zero);
      var rest := PopN(step.0, n - 1, zero);
      (rest.0, [step.1] + rest.1)
  }

  /** Messages that fit come out in the order they went in: first in, first out. */
  lemma {:induction false} PushAllFifo<T>(q: Queue<T>, msgs: seq<T>)
    requires !q.closed && |q.buffer| + |msgs| <= q.capacity
    ensures PushAll(q, msgs) == (q.(buffer := q.buffer + msgs), 0)
    decreases |msgs|
  {
    if msgs == [] {
      assert q.buffer + msgs == q.buffer;
    } else {
      var q1 := q.(buffer := q.buffer + [msgs[0]]);
      assert Push(q, msgs[0]) == (q1, None);
      PushAllFifo(q1, msgs[1..]);
      assert q1.buffer + msgs[1..] == q.buffer + msgs;
    }
  }

  /** Popping takes messages off the front of the buffer, in order. */
  lemma {:induction false} PopNTakesPrefix<T>(q: Queue<T>, n: nat, zero: T)
    requires n <= |q.buffer|
    ensures PopN(q, n, zero) == (q.(buffer := q.buffer[n..]), q.buffer[..n])
    decreases n
  {
    if n > 0 {
      var q1 := q.(buffer := q.buffer[1..]);
      PopNTakesPrefix(q1, n - 1, zero);
      assert q.buffer[1..][n - 1..] == q.buffer[n..];
      assert [q.buffer[0]] + q.buffer[1..][..n - 1] == q.buffer[..n];
    }
  }

  /** Pushing into an empty queue and then popping everything gives the messages back, in order. */
  lemma FifoRoundTrip<T>(cap: nat, msgs: seq<T>, zero: T)
    requires |msgs| <= cap
    ensures PushAll(NewChannelQueue<T>(cap), msgs).1 == 0
    ensures PushAll(NewChannelQueue<T>(cap), msgs).0.buffer == msgs
    ensures PopN(PushAll(NewChannelQueue<T>(cap), msgs).0, |msgs|, zero).1 == msgs
  {
    PushAllFifo(NewChannelQueue<T>(cap), msgs);
    var full := PushAll(NewChannelQueue<T>(cap), msgs).0;
    assert full.buffer == msgs;
    PopNTakesPrefix(full, |msgs|, zero);
  }

  /**
   * After `Close`, the buffered messages still come out in order, and then
   * every further `Pop` reports the queue closed.
   */
  lemma DrainAfterClose<T>(q: Queue<T>, zero: T)
    requires !q.closed
    ensures PopN(Close(q), |q.buffer|, zero).1 == q.buffer
    ensures PopN(Close(q), |q.buffer|, zero).0.buffer == []
    ensures PopN(Close(q), |q.buffer|, zero).0.closed
    ensures Pop(PopN(Close(q), |q.buffer|, zero).0, zero).2 == Some(QueueClosed)
  {
    PopNTakesPrefix(Close(q), |q.buffer|, zero);
    assert q.buffer[|q.buffer|..] == [];
    assert q.buffer[..|q.buffer|] == q.buffer;
  }

  /** A full queue refuses every further message and stays as it was. */
  lemma {:induction false} FullQueueRefuses<T>(q: Queue<T>, msgs: seq<T>)
    requires !q.closed && |q.buffer| >= q.capacity
    ensures PushAll(q, msgs) == (q, |msgs|)
    decreases |msgs|
  {
    if msgs != [] {
      FullQueueRefuses(q, msgs[1..]);
    }
  }
}
