/**
 The bounded broadcast channel of a room: a ring that keeps the latest `capacity` events,
 overwriting the oldest, and receivers that each remember the next position they want.

 `log` is the ghost of everything ever sent; the ring is its window.
 */
module Broadcast {
  import opened RoomEvents

  lemma NoMultipleBetween(d: nat, capacity: nat, k: int)
    requires 0 < d < capacity
    ensures d != capacity * k
  {
    if k >= 1 {
      assert capacity * k == capacity + capacity * (k - 1);
    }
  }

  // Two positions less than a capacity apart never share a slot.
  lemma SlotsDistinct(i: nat, j: nat, capacity: nat)
    requires i < j < i + capacity
    ensures i % capacity != j % capacity
  {
    NoMultipleBetween(j - i, capacity, j / capacity - i / capacity);
  }

  class Channel {
    ghost const id: nat
    ghost const owner: RoomId
    const capacity: nat
    var slots: seq<RoomEvent>
    var tail: nat
    ghost var log: seq<RoomEvent>

    ghost predicate Valid()
      reads this
    {
      && 0 < capacity == |slots|
      && tail == |log|
      && forall i :: 0 <= i < |log| <= i + capacity ==> slots[i % capacity] == log[i]
    }

    constructor (capacity: nat, ghost id: nat, ghost owner: RoomId)
      requires 0 < capacity
      ensures Valid() && log == [] && this.capacity == capacity && this.id == id && this.owner == owner
    {
      this.capacity, this.id, this.owner := capacity, id, owner;
      slots := seq(capacity, _ => RoomExpired);
      tail, log := 0, [];
    }

    // Sending always succeeds; the slot it lands in loses what it held a capacity ago.
    method Send(e: RoomEvent)
      requires Valid()
      modifies this
      ensures Valid() && log == old(log) + [e]
    {
      slots := slots[tail % capacity := e];
      tail := tail + 1;
      log := log + [e];
      forall i | 0 <= i < |log| <= i + capacity
        ensures slots[i % capacity] == log[i]
      {
        if i < tail - 1 {
          SlotsDistinct(i, tail - 1, capacity);
        }
      }
    }

    method Subscribe() returns (r: Receiver)
      requires Valid()
      ensures fresh(r) && r.channel == this && r.next == |log|
    {
      r := new Receiver(this, tail);
    }
  }

  datatype Received = Event(event: RoomEvent) | Lagged(missed: nat) | Empty

  // What a receiver wanting position `next` gets from a channel that has carried `log`.
  function Receive(log: seq<RoomEvent>, next: nat, capacity: nat): (r: Received)
    requires next <= |log|
    ensures r.Event? ==> next < |log| <= next + capacity && r.event == log[next]
    ensures r.Lagged? <==> next + capacity < |log|
    ensures r.Empty? <==> next == |log|
  {
    if next + capacity < |log| then Lagged(|log| - next - capacity)
    else if next == |log| then Empty
    else Event(log[next])
  }

  class Receiver {
    const channel: Channel
    var next: nat

    constructor (channel: Channel, next: nat)
      ensures this.channel == channel && this.next == next
    {
      this.channel, this.next := channel, next;
    }

    // The ring answers exactly as the unbounded log would, or admits that it cannot.
    // A lagging receiver is moved to the oldest event the ring still holds.
    method Recv() returns (r: Received)
      requires channel.Valid() && next <= |channel.log|
      modifies this
      ensures r == Receive(channel.log, old(next), channel.capacity)
      ensures next == if r.Event? then old(next) + 1
                      else if r.Lagged? then |channel.log| - channel.capacity
                      else old(next)
    {
      if next == channel.tail {
        r := Empty;
      } else if next + channel.capacity < channel.tail {
        r := Lagged(channel.tail - next - channel.capacity);
        next := channel.tail - channel.capacity;
      } else {
        r := Event(channel.slots[next % channel.capacity]);
        next := next + 1;
      }
    }
  }
}
