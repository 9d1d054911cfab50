/** The non-blocking connector: a bounded queue that drops the newest
    notification when full, drained one notification per worker step into
    the blocking connector; and the choice between the two connectors. */
module Dispatch {
  import opened Wrappers
  import opened Notifications
  import opened Connectors
  import opened Transport

  const DefaultQueueCapacity: int := 128

  /** `ArrayBlockingQueue.add` on a queue as a value: the new queue and
      whether the notification was accepted. */
  function Offer<T>(queue: seq<T>, capacity: int, x: T): (r: (seq<T>, bool))
    ensures r.1 <==> |queue| < capacity
    ensures r.0 == (if r.1 then queue + [x] else queue)
  {
    if |queue| < capacity then (queue + [x], true) else (queue, false)
  }

  /** Offers never overfill the queue, and what leaves it is the oldest
      element first: a run of offers into an empty queue keeps the first
      `capacity` of them, in order. */
  lemma {:induction false} OfferPrefix<T>(xs: seq<T>, capacity: nat)
    ensures |OfferAll([], capacity, xs)| <= capacity
    ensures OfferAll([], capacity, xs) == xs[..if |xs| < capacity then |xs| else capacity]
    decreases |xs|
  {
    if xs != [] {
      var init := xs[..|xs| - 1];
      OfferPrefix(init, capacity);
      var cut := if |init| < capacity then |init| else capacity;
      if |init| < capacity {
        assert init + [xs[|xs| - 1]] == xs;
      } else {
        assert xs[..cut] == init[..cut];
      }
    }
  }

  /** The queue after offering each of `xs` in turn. */
  function OfferAll<T>(queue: seq<T>, capacity: int, xs: seq<T>): seq<T>
    decreases |xs|
  {
    if xs == [] then queue else Offer(OfferAll(queue, capacity, xs[..|xs| - 1]), capacity, xs[|xs| - 1]).0
  }

  class NoneBlockingConnector {
    const transport: SimpleConnector
    const capacity: int
    var queue: seq<LoggedNotification>
    var started: bool
    var active: bool

    /** The queue never holds more than its capacity. */
    predicate Valid()
      reads this, transport, transport.config
    {
      1 <= capacity && |queue| <= capacity && transport.config.Valid()
    }

    /** A connector with the default capacity of 128. */
    constructor (signature: Option<string>)
      ensures Valid() && fresh(transport) && fresh(transport.config)
      ensures capacity == DefaultQueueCapacity && queue == [] && !started && active
      ensures transport.config.signature == signature && transport.Throttle() == ThrottleState(None, 0)
      ensures transport.config.applicationEnvironment == Some(DefaultEnvironment)
      ensures transport.config.enabledEnvironments == DefaultEnabledEnvironments
    {
      transport := new SimpleConnector(signature);
      capacity := DefaultQueueCapacity;
      queue := [];
      started := false;
      active := true;
    }

    /** A connector whose queue holds at most `capacity` notifications. */
    constructor WithCapacity(signature: Option<string>, capacity: int)
      requires capacity >= 1
      ensures Valid() && fresh(transport) && fresh(transport.config)
      ensures this.capacity == capacity && queue == [] && !started && active
      ensures transport.config.signature == signature && transport.Throttle() == ThrottleState(None, 0)
    {
      transport := new SimpleConnector(signature);
      this.capacity := capacity;
      queue := [];
      started := false;
      active := true;
    }

    /** `send`: enqueue without any environment gate; a full queue drops
        the new notification and answers false. */
    method Send(n: LoggedNotification) returns (accepted: bool)
      requires Valid()
      modifies this`queue
      ensures Valid()
      ensures (queue, accepted) == Offer(old(queue), capacity, n)
    {
      if |queue| < capacity {
        queue := queue + [n];
        return true;
      }
      return false;
    }

    /** `start`: starts the worker; a second start is refused as
        `Thread.start` refuses it. */
    method Start() returns (outcome: Outcome)
      modifies this`started
      ensures started
      ensures outcome == (if old(started) then Fail(IllegalThreadState) else Pass)
    {
      if started {
        return Fail(IllegalThreadState);
      }
      started := true;
      return Pass;
    }

    /** `stop`: clears the worker's flag, so the loop runs no further
        iteration after the current one. */
    method Stop()
      modifies this`active
      ensures !active
    {
      active := false;
    }

    /** The notification the worker takes next, if any. */
    function Next(): seq<LoggedNotification>
      reads this
    {
      if |queue| > 0 then queue[..1] else []
    }

    /** One iteration of the worker loop. Nothing happens when the worker
        is not running, when it has been stopped, or when the queue is
        empty (the take would block). Otherwise the head leaves the queue
        and goes through the blocking connector's `send` (gate, throttle,
        exchange); whatever that send does, the worker stays active.
        `body` is the text built for posting the head, if any. */
    method WorkerStep(w: Wire) returns (ran: bool, delivered: bool, body: Option<string>)
      requires Valid()
      modifies this`queue, transport`lastThrottled, transport`throttleTimeout
      modifies Next()`applicationEnvironment, Next()`version, Next()`userId
      ensures Valid() && active == old(active)
      ensures ran <==> started && active && |old(queue)| > 0
      ensures !ran ==> queue == old(queue) && !delivered && body.None? && transport.Throttle() == old(transport.Throttle())
      ensures ran ==> (queue == old(queue)[1..]
        && (delivered, transport.Throttle()) == Deliver(old(transport.Throttle()), transport.config.IsSendable(), w))
      ensures ran ==> var go := Proceeds(old(transport.Throttle()), transport.config.IsSendable(), w.checkedAt);
        (go ==> Stamped(old(queue)[0].View(), old(queue)[0].gson, transport.config.Snapshot(), old(queue[0].userId), body))
        && (!go ==> unchanged(old(queue)[0]) && body.None?)
      ensures ran ==> Unstamped(old(queue)[0].View()) == old(Unstamped(queue[0].View()))
    {
      if !started || !active || |queue| == 0 {
        return false, false, None;
      }
      var head := queue[0];
      queue := queue[1..];
      label sending:
      delivered, body := transport.Send(head, w);
      assert unchanged@sending(transport.config);
      ran := true;
    }
  }

  /** A reference to either connector, sent to through its own `send`. */
  datatype AnyConnector = Blocking(simple: SimpleConnector) | NonBlocking(queued: NoneBlockingConnector) {
    /** The objects a send through the reference changes. */
    function Sending(): set<object> {
      if Blocking? then {simple} else {queued}
    }

    /** The objects behind the reference. */
    function Repr(): set<object> {
      if Blocking? then {simple, simple.config} else {queued, queued.transport, queued.transport.config}
    }

    function Config(): Connector
      reads if Blocking? then {simple} else {queued, queued.transport}
    {
      if Blocking? then simple.config else queued.transport.config
    }

    predicate Valid()
      reads if Blocking? then {simple, simple.config} else {queued, queued.transport, queued.transport.config}
    {
      if Blocking? then simple.config.Valid() else queued.Valid()
    }
  }

  /** `connector.send(notification)` through whichever connector it is: a
      blocking one sends now, a non-blocking one only enqueues. `body` is
      the text a blocking send built for posting, if any. */
  method SendVia(c: AnyConnector, n: LoggedNotification, w: Wire) returns (accepted: bool, body: Option<string>)
    requires c.Valid()
    modifies c.Sending(), n`applicationEnvironment, n`version, n`userId
    ensures c.Valid()
    ensures c.NonBlocking? ==>
      c.queued.started == old(c.queued.started) && c.queued.active == old(c.queued.active)
    ensures c.Blocking? ==> (accepted, c.simple.Throttle()) == Deliver(old(c.simple.Throttle()), c.simple.config.IsSendable(), w)
    ensures c.NonBlocking? ==> (c.queued.queue, accepted) == Offer(old(c.queued.queue), c.queued.capacity, n)
    ensures c.Blocking? ==> var go := Proceeds(old(c.simple.Throttle()), c.simple.config.IsSendable(), w.checkedAt);
      (go ==> Stamped(n.View(), n.gson, c.simple.config.Snapshot(), old(n.userId), body))
      && (!go ==> unchanged(n) && body.None?)
    ensures c.NonBlocking? ==> unchanged(n) && body.None?
    ensures Unstamped(n.View()) == old(Unstamped(n.View()))
  {
    match c
    case Blocking(s) =>
      accepted, body := s.Send(n, w);
    case NonBlocking(q) =>
      accepted := q.Send(n);
      body := None;
  }

  /** `connector.start()`: the blocking connector has nothing to start;
      the non-blocking one starts its worker, once. */
  method StartVia(c: AnyConnector) returns (outcome: Outcome)
    modifies if c.NonBlocking? then {c.queued} else {}
    ensures c.Blocking? ==> outcome == Pass
    ensures c.NonBlocking? ==> (c.queued.started && c.queued.active == old(c.queued.active)
      && c.queued.queue == old(c.queued.queue)
      && outcome == (if old(c.queued.started) then Fail(IllegalThreadState) else Pass))
  {
    match c
    case Blocking(_) => outcome := Pass;
    case NonBlocking(q) => outcome := q.Start();
  }

  /** `connector.stop()`: nothing for the blocking connector; the worker
      of the non-blocking one is told to finish. */
  method StopVia(c: AnyConnector)
    modifies if c.NonBlocking? then {c.queued} else {}
    ensures c.NonBlocking? ==> (!c.queued.active && c.queued.started == old(c.queued.started)
      && c.queued.queue == old(c.queued.queue))
  {
    match c
    case Blocking(_) =>
    case NonBlocking(q) => q.Stop();
  }
}
