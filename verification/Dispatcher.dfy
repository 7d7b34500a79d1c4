/** The wake-up dispatcher: one bounded channel per id, filled without blocking and drained by
    waiting pollers. */
module Dispatcher {
  import opened Common

  const CAPACITY := 32

  /** The channels by id, each holding what was sent and not yet received, and the closed flag. */
  datatype Channels<T> = Channels(buffers: map<string, seq<T>>, closed: bool)

  function Listened<T>(c: Channels<T>, id: string): Channels<T> {
    if c.closed || id in c.buffers then c else c.(buffers := c.buffers[id := []])
  }

  /** A send never blocks: it is dropped when nobody ever listened or the buffer is full. */
  function Dispatched<T>(c: Channels<T>, id: string, payload: T): Channels<T> {
    if c.closed || id !in c.buffers || |c.buffers[id]| >= CAPACITY then c
    else c.(buffers := c.buffers[id := c.buffers[id] + [payload]])
  }

  function Taken<T>(c: Channels<T>, id: string): Channels<T>
    requires id in c.buffers && c.buffers[id] != []
  {
    c.(buffers := c.buffers[id := c.buffers[id][1..]])
  }

  function Shut<T>(c: Channels<T>): Channels<T> {
    if c.closed then c else Channels(map[], true)
  }

  /** How one attempt of a waiting `select` ends; `Blocked` means no case was ready. */
  datatype Waited<T> = Payload(value: T) | TimedOut | ClosedError | Blocked

  class Dispatcher<T> {
    var channels: map<string, seq<T>>
    var closed: bool
    /** Per id, everything its channel has accepted and everything pollers have received. */
    ghost var accepted: map<string, seq<T>>
    ghost var received: map<string, seq<T>>

    ghost function State(): Channels<T>
      reads this
    {
      Channels(channels, closed)
    }

    ghost predicate Valid()
      reads this
    {
      && (closed ==> channels == map[])
      && accepted.Keys == received.Keys
      && (!closed ==> channels.Keys == accepted.Keys)
      && (forall id :: id in channels ==>
            && accepted[id] == received[id] + channels[id]
            && |channels[id]| <= CAPACITY)
    }

    constructor ()
      ensures Valid() && State() == Channels(map[], false)
      ensures accepted == map[] && received == map[]
    {
      channels, closed := map[], false;
      accepted, received := map[], map[];
    }

    /** Makes sure the id has a channel; false means the dispatcher is closed. */
    method Listen(id: string) returns (ok: bool)
      requires Valid()
      modifies this
      ensures Valid() && ok == !old(closed)
      ensures State() == Listened(old(State()), id)
      ensures forall i :: i in old(accepted) ==>
                i in accepted && accepted[i] == old(accepted[i]) && received[i] == old(received[i])
    {
      if closed {
        return false;
      }
      if id !in channels {
        channels := channels[id := []];
        accepted, received := accepted[id := []], received[id := []];
      }
      return true;
    }

    /** Sends without blocking. An error is reported only when the dispatcher is closed. */
    method Dispatch(id: string, payload: T) returns (ok: bool)
      requires Valid()
      modifies this
      ensures Valid() && ok == !old(closed)
      ensures State() == Dispatched(old(State()), id, payload)
      ensures received == old(received)
      ensures accepted == if !old(closed) && id in old(channels) && |old(channels[id])| < CAPACITY
                          then old(accepted)[id := old(accepted[id]) + [payload]] else old(accepted)
      ensures channels.Keys == old(channels).Keys
      ensures !old(closed) && id in old(channels) ==>
                channels[id] == old(channels[id]) + if |old(channels[id])| < 32 then [payload] else []
    {
      if closed {
        return false;
      }
      if id in channels && |channels[id]| < CAPACITY {
        assert accepted[id] + [payload] == received[id] + (channels[id] + [payload]);
        channels := channels[id := channels[id] + [payload]];
        accepted := accepted[id := accepted[id] + [payload]];
      }
      return true;
    }

    /** One look at the `select`: any ready case may be taken, and with none ready nothing happens. */
    method TryWait(id: string, timerFired: bool) returns (r: Waited<T>)
      requires Valid()
      modifies this
      ensures Valid()
      ensures r.ClosedError? <==> old(closed)
      ensures r.Blocked? <==> !old(closed) && !timerFired && Listened(old(State()), id).buffers[id] == []
      ensures r.TimedOut? ==> timerFired
      ensures var c := Listened(old(State()), id);
              match r
              case Payload(v) =>
                && c.buffers[id] != [] && v == c.buffers[id][0] && State() == Taken(c, id)
                && received[id] == old(received[id]) + [v]
              case _ => State() == c
      ensures forall i :: i in old(accepted) ==>
                && i in accepted && accepted[i] == old(accepted[i])
                && (i != id || !r.Payload? ==> received[i] == old(received[i]))
    {
      var open := Listen(id);
      if !open {
        return ClosedError;
      }
      ghost var c := State();
      if
      case channels[id] != [] =>
        var head := channels[id][0];
        assert accepted[id] == received[id] + [head] + channels[id][1..];
        received := received[id := received[id] + [head]];
        channels := channels[id := channels[id][1..]];
        assert State() == Taken(c, id);
        return Payload(head);
      case timerFired =>
        return TimedOut;
      case channels[id] == [] && !timerFired =>
        return Blocked;
    }

    method Close()
      requires Valid()
      modifies this
      ensures Valid() && State() == Shut(old(State()))
      ensures accepted == old(accepted) && received == old(received)
    {
      if !closed {
        closed := true;
        channels := map[];
      }
    }
  }

  // ---- The same operations as one history ----

  datatype Event<T> = Listening(id: string) | Sending(id: string, payload: T) | Receiving(id: string) | Closing

  /** A receive happens only when something is buffered; the other calls always go through. */
  ghost predicate Enabled<T>(e: Event<T>, c: Channels<T>) {
    e.Receiving? ==> e.id in c.buffers && c.buffers[e.id] != []
  }

  ghost function Apply<T>(e: Event<T>, c: Channels<T>): Channels<T>
    requires Enabled(e, c)
  {
    match e
    case Listening(id) => Listened(c, id)
    case Sending(id, p) => Dispatched(c, id, p)
    case Receiving(id) => Taken(c, id)
    case Closing => Shut(c)
  }

  ghost predicate Legal<T>(events: seq<Event<T>>)
    decreases |events|, 0
  {
    events != [] ==>
      Legal(events[..|events| - 1]) && Enabled(events[|events| - 1], Outcome(events[..|events| - 1]))
  }

  ghost function Outcome<T>(events: seq<Event<T>>): Channels<T>
    requires Legal(events)
    decreases |events|, 1
  {
    if events == [] then Channels(map[], false)
    else Apply(events[|events| - 1], Outcome(events[..|events| - 1]))
  }

  /** What one event hands to a poller of `id`, and what it adds to the channel of `id`. */
  ghost function Taking<T>(e: Event<T>, c: Channels<T>, id: string): seq<T>
    requires Enabled(e, c)
  {
    if e == Receiving(id) then [c.buffers[id][0]] else []
  }

  ghost function Adding<T>(e: Event<T>, c: Channels<T>, id: string): seq<T> {
    if e.Sending? && e.id == id && !c.closed && id in c.buffers && |c.buffers[id]| < CAPACITY
    then [e.payload] else []
  }

  /** What pollers of `id` have received, in order. */
  ghost function ReceivedOn<T>(events: seq<Event<T>>, id: string): seq<T>
    requires Legal(events)
  {
    if events == [] then []
    else
      var before, last := events[..|events| - 1], events[|events| - 1];
      ReceivedOn(before, id) + Taking(last, Outcome(before), id)
  }

  /** What was sent to `id` at a moment its buffer had room. */
  ghost function AcceptedOn<T>(events: seq<Event<T>>, id: string): seq<T>
    requires Legal(events)
  {
    if events == [] then []
    else
      var before, last := events[..|events| - 1], events[|events| - 1];
      AcceptedOn(before, id) + Adding(last, Outcome(before), id)
  }

  ghost predicate IsFifo<T>(c: Channels<T>, id: string, received: seq<T>, accepted: seq<T>) {
    && (c.closed ==> c.buffers == map[])
    && (id in c.buffers ==> |c.buffers[id]| <= CAPACITY && accepted == received + c.buffers[id])
    && (id !in c.buffers ==> received <= accepted)
    && (id !in c.buffers && !c.closed ==> accepted == [])
  }

  lemma StepKeepsFifo<T>(e: Event<T>, c: Channels<T>, id: string, received: seq<T>, accepted: seq<T>)
    requires Enabled(e, c) && IsFifo(c, id, received, accepted)
    ensures IsFifo(Apply(e, c), id, received + Taking(e, c, id), accepted + Adding(e, c, id))
  {
    if e == Receiving(id) {
      var b := c.buffers[id];
      assert b == [b[0]] + b[1..];
      assert received + b == received + [b[0]] + b[1..];
    } else if e.Sending? && e.id == id && id in c.buffers {
      var b := c.buffers[id];
      assert received + b + [e.payload] == received + (b + [e.payload]);
    }
  }

  /** Over every history each channel is a bounded first-in first-out queue: while it is open,
      what it accepted is what was received followed by what is still buffered. */
  lemma {:induction false} BoundedFifo<T>(events: seq<Event<T>>, id: string)
    requires Legal(events)
    ensures IsFifo(Outcome(events), id, ReceivedOn(events, id), AcceptedOn(events, id))
  {
    if events == [] {
    } else {
      var before, last := events[..|events| - 1], events[|events| - 1];
      BoundedFifo(before, id);
      StepKeepsFifo(last, Outcome(before), id, ReceivedOn(before, id), AcceptedOn(before, id));
    }
  }
}
