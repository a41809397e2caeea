/**
 * The signal bus: a hub combines a broadcast channel of 256 slots, which
 * every port reads through its own cursor, with an unbounded fan-in queue
 * that every port writes to and only the hub reads.
 *
 * The broadcast channel is modelled by `log`, every value it ever accepted;
 * the channel itself retains only the newest `Capacity` of them, and a port
 * whose cursor points below that window is told it lagged.
 */
module SignalType {
  import opened Wrappers

  /** The broadcast capacity passed to `broadcast::channel`. */
  const Capacity: nat := 256

  /** What a port's `recv` yields: a value, a lag error, or nothing yet (the call would wait). */
  datatype RecvResult<T> = Received(value: T) | Lagged(missed: nat) | Empty

  /** What the hub's fan-in `recv` yields: the oldest queued value, or nothing yet. */
  datatype Poll<T> = Ready(value: T) | Pending

  /** The broadcast `send`: with no live receiver the value is handed back and not stored. */
  function Broadcast<T>(log: seq<T>, receivers: nat, v: T): (r: seq<T>)
    ensures receivers == 0 ==> r == log
    ensures receivers > 0 ==> |r| == |log| + 1 && r[..|log|] == log && r[|log|] == v
  {
    if receivers == 0 then log else log + [v]
  }

  /**
   * One `recv` on a broadcast receiver whose next position is `cursor`:
   * the new cursor comes with the result. A receiver more than `Capacity`
   * behind loses the overwritten values and is moved to the oldest one retained.
   */
  function Deliver<T>(log: seq<T>, cursor: nat): (r: (RecvResult<T>, nat))
    requires cursor <= |log|
    ensures cursor <= r.1 <= |log|
    ensures r.0.Received? <==> cursor < |log| && |log| - cursor <= Capacity
    ensures r.0.Received? ==> r.0.value == log[cursor] && r.1 == cursor + 1
    ensures r.0.Lagged? <==> |log| - cursor > Capacity
    ensures r.0.Lagged? ==> r.1 == |log| - Capacity && r.0.missed == r.1 - cursor > 0
    ensures r.0.Empty? <==> cursor == |log|
    ensures r.0.Empty? ==> r.1 == cursor
  {
    if |log| - cursor > Capacity then (Lagged(|log| - Capacity - cursor), |log| - Capacity)
    else if cursor < |log| then (Received(log[cursor]), cursor + 1)
    else (Empty, cursor)
  }

  /** The values a port reads if it calls `recv` until nothing is left. */
  function Drain<T>(log: seq<T>, cursor: nat): seq<T>
    requires cursor <= |log|
    decreases |log| - cursor, if |log| - cursor > Capacity then 1 else 0
  {
    var (r, next) := Deliver(log, cursor);
    match r
    case Received(v) => [v] + Drain(log, next)
    case Lagged(_) => Drain(log, next)
    case Empty => []
  }

  function Max(a: int, b: int): int { if a < b then b else a }

  /**
   * A port reads every value broadcast at or after its cursor that the
   * channel still holds, each exactly once and in send order; nothing
   * older than its cursor, and nothing twice.
   */
  lemma {:induction false} DrainIsRetainedSuffix<T>(log: seq<T>, cursor: nat)
    requires cursor <= |log|
    ensures Drain(log, cursor) == log[Max(cursor, |log| - Capacity)..]
    decreases |log| - cursor, if |log| - cursor > Capacity then 1 else 0
  {
    var (r, next) := Deliver(log, cursor);
    match r
    case Received(v) =>
      DrainIsRetainedSuffix(log, next);
      assert log[cursor..] == [v] + log[next..];
    case Lagged(_) =>
      DrainIsRetainedSuffix(log, next);
    case Empty =>
  }

  /** A port that keeps up (at most `Capacity` behind) reads exactly `log[cursor..]`. */
  lemma DrainWithinCapacity<T>(log: seq<T>, cursor: nat)
    requires cursor <= |log| && |log| - cursor <= Capacity
    ensures Drain(log, cursor) == log[cursor..]
  {
    DrainIsRetainedSuffix(log, cursor);
  }

  class SignalHub<T> {
    /** Every value the broadcast channel accepted, oldest first. */
    var log: seq<T>
    /** The fan-in queue written by ports, oldest first. */
    var queue: seq<T>
    /** Live broadcast receivers; ports are never dropped in this model. */
    var receivers: nat

    /** `SignalHub::new`: an empty broadcast channel of `Capacity` slots and an empty queue. */
    constructor ()
      ensures log == [] && queue == [] && receivers == 0
    {
      log, queue, receivers := [], [], 0;
    }

    /** `get_port`: a port subscribed at the current broadcast tail, writing into this hub's queue. */
    method GetPort() returns (p: SignalPort<T>)
      modifies this
      ensures fresh(p) && p.hub == this && p.cursor == |log|
      ensures log == old(log) && queue == old(queue) && receivers == old(receivers) + 1
    {
      receivers := receivers + 1;
      p := new SignalPort(this, |log|);
    }

    /**
     * `SignalHub::send`: broadcast to every port. Returns the number of
     * receivers, or the value back when nobody is subscribed.
     */
    method Send(v: T) returns (r: Result<nat, T>)
      modifies this`log
      ensures log == Broadcast(old(log), receivers, v)
      ensures r == if receivers == 0 then Err(v) else Ok(receivers)
    {
      if receivers == 0 {
        r := Err(v);
      } else {
        log := log + [v];
        r := Ok(receivers);
      }
    }

    /** `SignalHub::recv`: the oldest value any port sent, first in first out. */
    method Recv() returns (r: Poll<T>)
      modifies this`queue
      ensures old(queue) == [] ==> r == Pending && queue == []
      ensures old(queue) != [] ==> r == Ready(old(queue)[0]) && queue == old(queue)[1..]
    {
      if queue == [] {
        r := Pending;
      } else {
        r := Ready(queue[0]);
        queue := queue[1..];
      }
    }
  }

  class SignalPort<T> {
    /** The hub whose queue this port writes and whose broadcast it reads. */
    const hub: SignalHub<T>
    /** Position in the broadcast log of the next value this port reads. */
    var cursor: nat

    ghost predicate Valid()
      reads this, hub
    {
      cursor <= |hub.log|
    }

    constructor (hub: SignalHub<T>, cursor: nat)
      ensures this.hub == hub && this.cursor == cursor
    {
      this.hub := hub;
      this.cursor := cursor;
    }

    /** `SignalPort::send`: onto the hub's fan-in queue only; no broadcast cursor sees it. */
    method Send(v: T)
      modifies hub`queue
      ensures hub.queue == old(hub.queue) + [v]
    {
      hub.queue := hub.queue + [v];
    }

    /** `SignalPort::recv`: the next broadcast value for this port, or a lag error. */
    method Recv() returns (r: RecvResult<T>)
      requires Valid()
      modifies this`cursor
      ensures Valid()
      ensures (r, cursor) == Deliver(hub.log, old(cursor))
    {
      var (res, next) := Deliver(hub.log, cursor);
      r, cursor := res, next;
    }

    /**
     * `Clone`: shares the write handle and subscribes afresh at the current
     * tail; the original's cursor is not copied.
     */
    method Clone() returns (p: SignalPort<T>)
      modifies hub`receivers
      ensures fresh(p) && p.hub == hub && p.cursor == |hub.log|
      ensures hub.receivers == old(hub.receivers) + 1
    {
      hub.receivers := hub.receivers + 1;
      p := new SignalPort(hub, |hub.log|);
    }
  }
}
