/**
 * The message bus: every inter-role message is published to the bounded
 * queues of the subscribers of its type and to every tap. Publishing never
 * blocks: a queue that is full drops the message. A queue is named by its
 * message type and position (a subscriber) or by its position (a tap).
 */
module Bus {
  import opened Types

  const SubscriberBufSize: nat := 64
  const TapBufSize: nat := 256

  /** A buffered channel: the messages waiting in it, oldest first, and its capacity. */
  datatype Queue = Queue(items: seq<Message>, capacity: nat)

  predicate Fits(q: Queue)
  {
    |q.items| <= q.capacity
  }

  /** A non-blocking send: appended when there is room, dropped otherwise. */
  function Offer(q: Queue, msg: Message): Queue
  {
    if |q.items| < q.capacity then q.(items := q.items + [msg]) else q
  }

  /** The same send to each queue in turn. */
  function Fanout(qs: seq<Queue>, msg: Message): (r: seq<Queue>)
    ensures |r| == |qs|
  {
    if qs == [] then [] else Fanout(qs[..|qs| - 1], msg) + [Offer(qs[|qs| - 1], msg)]
  }

  datatype BusState = BusState(subscribers: map<MessageType, seq<Queue>>, taps: seq<Queue>)

  /** Every queue is within its capacity, subscriber queues hold 64 and taps 256. */
  predicate Bounded(b: BusState)
  {
    && (forall t, i :: t in b.subscribers && 0 <= i < |b.subscribers[t]| ==> SubscriberQueueOk(b.subscribers[t][i]))
    && (forall i :: 0 <= i < |b.taps| ==> TapQueueOk(b.taps[i]))
  }

  predicate SubscriberQueueOk(q: Queue)
  {
    q.capacity == SubscriberBufSize && Fits(q)
  }

  predicate TapQueueOk(q: Queue)
  {
    q.capacity == TapBufSize && Fits(q)
  }

  /** Publish, as a value: the subscribers of the type and every tap are offered the message. */
  function Published(b: BusState, msg: Message): BusState
  {
    BusState(
      if msg.msgType in b.subscribers then b.subscribers[msg.msgType := Fanout(b.subscribers[msg.msgType], msg)] else b.subscribers,
      Fanout(b.taps, msg))
  }

  /** Subscribe, as a value: one more empty queue of capacity 64 for the type. */
  function Subscribed(b: BusState, t: MessageType): BusState
  {
    var subs := if t in b.subscribers then b.subscribers[t] else [];
    b.(subscribers := b.subscribers[t := subs + [Queue([], SubscriberBufSize)]])
  }

  /** NewTap, as a value: one more empty queue of capacity 256. */
  function Tapped(b: BusState): BusState
  {
    b.(taps := b.taps + [Queue([], TapBufSize)])
  }

  // ---------------------------------------------------------------------
  // Properties
  // ---------------------------------------------------------------------

  /** A send appends exactly when the queue has room, keeps the capacity and never overfills. */
  lemma OfferSpec(q: Queue, msg: Message)
    ensures var r := Offer(q, msg);
            && r.capacity == q.capacity
            && (|q.items| < q.capacity ==> r.items == q.items + [msg])
            && (|q.items| >= q.capacity ==> r == q)
            && (Fits(q) ==> Fits(r))
  {
  }

  /** Each queue of a fan-out gets its own send, independently of the others. */
  lemma {:induction false} FanoutSpec(qs: seq<Queue>, msg: Message)
    ensures forall i :: 0 <= i < |qs| ==> Fanout(qs, msg)[i] == Offer(qs[i], msg)
  {
    if qs != [] {
      FanoutSpec(qs[..|qs| - 1], msg);
    }
  }

  /**
   * Publishing keeps every queue within its capacity, touches the
   * subscribers of the message's type only, and offers the message to
   * each of them and to each tap.
   */
  lemma PublishedSpec(b: BusState, msg: Message)
    ensures var r := Published(b, msg);
            && (Bounded(b) ==> Bounded(r))
            && r.subscribers.Keys == b.subscribers.Keys
            && (forall t :: t in b.subscribers && t != msg.msgType ==> r.subscribers[t] == b.subscribers[t])
            && (msg.msgType in b.subscribers ==>
                  forall i :: 0 <= i < |b.subscribers[msg.msgType]| ==>
                    r.subscribers[msg.msgType][i] == Offer(b.subscribers[msg.msgType][i], msg))
            && |r.taps| == |b.taps|
            && (forall i :: 0 <= i < |b.taps| ==> r.taps[i] == Offer(b.taps[i], msg))
  {
    FanoutSpec(b.taps, msg);
    if msg.msgType in b.subscribers {
      FanoutSpec(b.subscribers[msg.msgType], msg);
    }
  }

  /** Subscribing adds one empty queue of capacity 64 at the end of that type's list and changes nothing else. */
  lemma SubscribedSpec(b: BusState, t: MessageType)
    ensures var r := Subscribed(b, t);
            var before := if t in b.subscribers then b.subscribers[t] else [];
            && (Bounded(b) ==> Bounded(r))
            && t in r.subscribers && r.subscribers[t] == before + [Queue([], SubscriberBufSize)]
            && (forall u :: u in b.subscribers && u != t ==> u in r.subscribers && r.subscribers[u] == b.subscribers[u])
            && r.taps == b.taps
  {
  }

  /** A new tap is one empty queue of capacity 256 at the end; subscribers are untouched. */
  lemma TappedSpec(b: BusState)
    ensures var r := Tapped(b);
            && (Bounded(b) ==> Bounded(r))
            && |r.taps| == |b.taps| + 1 && r.taps[|b.taps|] == Queue([], TapBufSize)
            && r.taps[..|b.taps|] == b.taps && r.subscribers == b.subscribers
  {
  }

  /** A message published to a type nobody subscribes to reaches only the taps. */
  lemma UnsubscribedType(b: BusState, msg: Message)
    requires msg.msgType !in b.subscribers
    ensures Published(b, msg).subscribers == b.subscribers
  {
  }

  class Bus {
    var subscribers: map<MessageType, seq<Queue>>
    var taps: seq<Queue>

    function State(): BusState
      reads this
    {
      BusState(subscribers, taps)
    }

    constructor ()
      ensures State() == BusState(map[], []) && Bounded(State())
    {
      subscribers := map[];
      taps := [];
    }

    /** Publish: a non-blocking send to each subscriber queue of the type, then to each tap. */
    method Publish(msg: Message)
      modifies this
      ensures State() == Published(old(State()), msg)
    {
      if msg.msgType in subscribers {
        var subs := subscribers[msg.msgType];
        subs := Send(subs, msg);
        subscribers := subscribers[msg.msgType := subs];
      }
      taps := Send(taps, msg);
    }

    /** Subscribe: a new queue for the type; its handle is its position in that type's list. */
    method Subscribe(t: MessageType) returns (handle: nat)
      modifies this
      ensures State() == Subscribed(old(State()), t)
      ensures handle == |if t in old(subscribers) then old(subscribers)[t] else []|
    {
      var subs := if t in subscribers then subscribers[t] else [];
      handle := |subs|;
      subscribers := subscribers[t := subs + [Queue([], SubscriberBufSize)]];
    }

    /** NewTap (and its alias Tap): a new tap queue; its handle is its position. */
    method NewTap() returns (handle: nat)
      modifies this
      ensures State() == Tapped(old(State()))
      ensures handle == |old(taps)|
    {
      handle := |taps|;
      taps := taps + [Queue([], TapBufSize)];
    }
  }

  /** The send loop over a list of queues. */
  method Send(qs: seq<Queue>, msg: Message) returns (r: seq<Queue>)
    ensures r == Fanout(qs, msg)
  {
    r := [];
    for i := 0 to |qs|
      invariant r == Fanout(qs[..i], msg)
    {
      assert qs[..i + 1][..i] == qs[..i];
      var q := qs[i];
      if |q.items| < q.capacity {
        q := q.(items := q.items + [msg]);
      }
      r := r + [q];
    }
    assert qs[..|qs|] == qs;
  }
}
