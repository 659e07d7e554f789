/** The frame ring's three calls as a caller sees them one at a time: a bounded queue. */
module FrameQueue {
  import opened Words
  import opened Wrapping
  import opened FrameRing

  class Queue {
    const capacity: nat
    const slots: array<Slot>
    var producer: nat
    var consumer: nat
    // The frames ever stored, and how many of them have been released.
    ghost var stored: seq<seq<byte>>
    ghost var released: nat

    /** The frames waiting, oldest first. */
    ghost function Contents(): seq<seq<byte>>
      reads this
      requires released <= |stored|
    {
      stored[released..]
    }

    ghost predicate Holds(i: nat)
      reads this, slots
      requires slots.Length == capacity > 0 && i < |stored|
    {
      var slot := slots[i % capacity];
      slot.size == |stored[i]| <= |slot.data| && slot.data[..slot.size] == stored[i]
    }

    ghost predicate Valid()
      reads this, slots
    {
      && PowerOfTwo(capacity) && 0 < capacity <= MAX64 / 2 && slots.Length == capacity
      && (forall i :: 0 <= i < slots.Length ==> |slots[i].data| == MAX_FRAME)
      && producer == Wrap(|stored|) && consumer == Wrap(released)
      && released <= |stored| <= released + capacity
      && (forall i :: 0 <= i < |stored| ==> stored[i] != [])
      && (forall i :: released <= i < |stored| ==> Holds(i))
    }

    constructor (capacity: nat)
      requires PowerOfTwo(capacity) && 0 < capacity <= MAX64 / 2
      ensures Valid() && Contents() == [] && fresh(slots) && this.capacity == capacity
    {
      this.capacity := capacity;
      slots := new Slot[capacity](_ => Slot(0, seq(MAX_FRAME, _ => 0)));
      producer, consumer, stored, released := 0, 0, [], 0;
    }

    /** Refuses frames of illegal size, reports a full ring, and otherwise stores the frame last. */
    method TryPush(frame: seq<byte>) returns (ok: bool, full: bool)
      requires Valid()
      modifies this, slots
      ensures Valid()
      ensures ok <==> Pushable(frame)
      ensures ok ==> (full <==> |old(Contents())| == capacity)
      ensures Contents() == if ok && !full then old(Contents()) + [frame] else old(Contents())
    {
      hide Wrap, PowerOfTwo;
      if !(0 < |frame| <= MAX_FRAME) { return false, false; }
      WrapDistance(|stored|, released);
      if Minus(producer, consumer) == capacity { return true, true; }
      WrapIndex(|stored|, capacity);
      var i := producer % capacity;
      ghost var before := slots[..];
      ghost var frames := stored;
      slots[i] := Slot(|frame|, frame + slots[i].data[|frame|..]);
      WrapNext(|stored|);
      producer := Wrap(producer + 1);
      stored := stored + [frame];
      forall k | released <= k < |stored| ensures Holds(k) {
        if k < |frames| {
          assert old(Holds(k));
          SlotsApart(|frames|, k, capacity);
        }
      }
      return true, false;
    }

    /** The oldest frame, or nothing; the ring is not changed. */
    method Front() returns (view: Option<seq<byte>>)
      requires Valid()
      ensures view == if Contents() == [] then None else Some(Contents()[0])
    {
      hide Wrap, PowerOfTwo;
      WrapDistance(|stored|, released);
      if consumer == producer { return None; }
      WrapIndex(released, capacity);
      assert Holds(released);
      var slot := slots[consumer % capacity];
      return Some(slot.data[..slot.size]);
    }

    /** Releases the oldest frame. */
    method Pop() returns (ok: bool)
      requires Valid()
      modifies this`consumer, this`released
      ensures Valid()
      ensures ok <==> old(Contents()) != []
      ensures Contents() == if ok then old(Contents())[1..] else old(Contents())
    {
      hide Wrap, PowerOfTwo;
      WrapDistance(|stored|, released);
      if consumer == producer { return false; }
      WrapNext(released);
      consumer := Wrap(consumer + 1);
      released := released + 1;
      forall k | released <= k < |stored| ensures Holds(k) { assert old(Holds(k)); }
      return true;
    }
  }
}
