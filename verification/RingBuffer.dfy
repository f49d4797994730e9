/** The fixed-size ring buffer that holds a queue's messages. */
module RingBuffer {
  import opened Types

  /** What an emptied slot holds. */
  const NO_MESSAGE := Message("", "", 0, 0, None)

  /**
    The messages still to be popped after a push. The buffer does not check for room: a push with no
    slot free overwrites a message that is still waiting, and the pop that would have reached the
    slot a second time finds it emptied.
   */
  function Pushed(queue: seq<Message>, capacity: nat, m: Message): (r: seq<Message>)
    ensures |r| == |queue| + 1
    ensures |queue| < capacity ==> r == queue + [m]
  {
    if |queue| < capacity || capacity == 0 then queue + [m]
    else queue[Offset(|queue|, capacity) := m] + [NO_MESSAGE]
  }

  lemma Advance(i: nat, n: nat)
    requires i < n
    ensures (i + 1) % n == if i + 1 == n then 0 else i + 1
  {
  }

  /** How far `tail` stands from the head: the size, less the full turns a buffer pushed past its capacity has made. */
  function Offset(size: nat, capacity: nat): (r: nat)
    requires capacity > 0
    ensures r < capacity && (size < capacity ==> r == size)
  {
    if size < capacity then size else Offset(size - capacity, capacity)
  }

  lemma {:induction false} OffsetNext(size: nat, capacity: nat)
    requires capacity > 0
    ensures Offset(size + 1, capacity) == if Offset(size, capacity) + 1 == capacity then 0 else Offset(size, capacity) + 1
  {
    if size >= capacity {
      OffsetNext(size - capacity, capacity);
    }
  }

  /** The slot at distance `i` from the head. */
  function Slot(head: nat, capacity: nat, i: nat): nat
    requires head < capacity
  {
    if head + i < capacity then head + i else head + i - capacity
  }

  /**
    The slots from the head on hold `contents` through any wrap-around; beyond one full turn of
    a buffer pushed past its capacity there is nothing left to hold.
   */
  ghost predicate Holds(slots: seq<Message>, head: nat, contents: seq<Message>)
    requires head < |slots|
  {
    forall i :: 0 <= i < |contents| ==> contents[i] == if i < |slots| then slots[Slot(head, |slots|, i)] else NO_MESSAGE
  }

  lemma HoldsPushed(slots: seq<Message>, head: nat, contents: seq<Message>, m: Message)
    requires head < |slots| && Holds(slots, head, contents)
    ensures var tail := Slot(head, |slots|, Offset(|contents|, |slots|));
            Holds(slots[tail := m], head, Pushed(contents, |slots|, m))
  {
  }

  lemma HoldsPopped(slots: seq<Message>, head: nat, contents: seq<Message>)
    requires head < |slots| && Holds(slots, head, contents) && contents != []
    ensures Holds(slots[head := NO_MESSAGE], Slot(head, |slots|, 1), contents[1..])
  {
  }

  class RingBufferQueue {
    const items: array<Message>
    var head: nat
    var tail: nat
    var size: nat
    /** The messages that successive pops will return. */
    ghost var contents: seq<Message>

    /** `tail` is `head + size` modulo the capacity, and the buffer holds `contents`. */
    ghost predicate Valid()
      reads this, items
    {
      && |contents| == size
      && if items.Length == 0 then size == 0
         else
           && head < items.Length && tail == Slot(head, items.Length, Offset(size, items.Length))
           && Holds(items[..], head, contents)
    }

    constructor (capacity: nat)
      ensures Valid() && fresh(items) && items.Length == capacity && contents == []
    {
      items := new Message[capacity](_ => NO_MESSAGE);
      head, tail, size, contents := 0, 0, 0, [];
    }

    function Size(): nat reads this { size }

    function Capacity(): nat { items.Length }

    method Push(message: Message)
      requires Valid() && items.Length > 0
      modifies this, items
      ensures Valid() && contents == Pushed(old(contents), items.Length, message)
    {
      OffsetNext(size, items.Length);
      HoldsPushed(items[..], head, contents, message);
      Advance(tail, items.Length);
      ghost var slots := items[..];
      items[tail] := message;
      assert items[..] == slots[tail := message];
      tail := (tail + 1) % items.Length;
      size := size + 1;
      contents := Pushed(contents, items.Length, message);
    }

    method Pop() returns (item: Message)
      requires Valid() && size > 0
      modifies this, items
      ensures Valid() && item == old(contents)[0] && contents == old(contents)[1..]
    {
      OffsetNext(size - 1, items.Length);
      HoldsPopped(items[..], head, contents);
      Advance(head, items.Length);
      item := items[head];
      ghost var slots := items[..];
      items[head] := NO_MESSAGE;
      assert items[..] == slots[head := NO_MESSAGE];
      head := (head + 1) % items.Length;
      size := size - 1;
      contents := contents[1..];
    }

    method Peek() returns (item: Message)
      requires Valid() && size > 0
      ensures item == contents[0]
    {
      item := items[head];
    }
  }
}
