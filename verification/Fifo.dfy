/** The circular buffer behind every wait queue and behind the message queue
    (Include/Fifo.hpp). */
module Fifos {

  /** The physical slot of the element with logical index k. */
  function Slot(head: nat, k: nat, m: nat): (s: nat)
    requires head < m && k <= m
    ensures s < m
  {
    if head + k < m then head + k else head + k - m
  }

  /** The logical index of a physical slot. */
  function Index(head: nat, slot: nat, m: nat): (k: nat)
    requires head < m && slot < m
    ensures k < m && Slot(head, k, m) == slot
  {
    if head <= slot then slot - head else slot - head + m
  }

  /** The n elements that follow each other from slot head, wrapping at the end. */
  function Window<T>(b: seq<T>, head: nat, n: nat): (w: seq<T>)
    requires head < |b| && n <= |b|
    ensures |w| == n
    ensures forall k {:trigger w[k]} | 0 <= k < n :: w[k] == b[Slot(head, k, |b|)]
  {
    seq(n, k requires 0 <= k < n => b[Slot(head, k, |b|)])
  }

  /** A queue without its element j. */
  function Without<T>(q: seq<T>, j: nat): seq<T>
    requires j < |q|
  {
    q[..j] + q[j + 1..]
  }

  /** Where element k comes from once elements j0 to before j have moved up. */
  function Origin(k: nat, j0: nat, j: nat): nat {
    if j0 <= k < j then k + 1 else k
  }

  /** The state of the shift loop of RemoveAt: the window holds was, except that its
      elements from j0 to before j already are their successors. */
  ghost predicate Shifted<T>(b: seq<T>, head: nat, was: seq<T>, j0: nat, j: nat) {
    && head < |b| && |was| <= |b| && j < |was|
    && forall k {:trigger b[Slot(head, k, |b|)]} | 0 <= k < |was| :: b[Slot(head, k, |b|)] == was[Origin(k, j0, j)]
  }

  lemma ShiftOne<T>(b: seq<T>, head: nat, was: seq<T>, j0: nat, j: nat)
    requires Shifted(b, head, was, j0, j) && j0 <= j && j + 1 < |was|
    ensures Shifted(b[Slot(head, j, |b|) := b[Slot(head, j + 1, |b|)]], head, was, j0, j + 1)
  {
    assert b[Slot(head, j + 1, |b|)] == was[Origin(j + 1, j0, j)];
  }

  /** When the loop is done the window, one element shorter, is was without j0. */
  lemma ShiftDone<T>(b: seq<T>, head: nat, was: seq<T>, j0: nat)
    requires j0 < |was| && Shifted(b, head, was, j0, |was| - 1)
    ensures Window(b, head, |was| - 1) == Without(was, j0)
  {}

  lemma ModOnce(x: nat, m: nat)
    requires 0 < m && x < 2 * m
    ensures x % m == if x < m then x else x - m
  {}

  /** The slot after slot i: (i + 1) % MAX_ITEMS. */
  function Next(i: nat, m: nat): (r: nat)
    requires i < m
    ensures r == if i + 1 < m then i + 1 else 0
  {
    ModOnce(i + 1, m);
    (i + 1) % m
  }

  /** The slot before slot i: (i - 1 + MAX_ITEMS) % MAX_ITEMS.  The unsigned
      subtraction wraps for slot 0 and the addition wraps it back. */
  function Prev(i: nat, m: nat): (r: nat)
    requires i < m
    ensures r == if i > 0 then i - 1 else m - 1
  {
    ModOnce(i - 1 + m, m);
    (i - 1 + m) % m
  }

  class Fifo<T> {
    const MAX_ITEMS: nat
    const none: T               // the default-constructed element, T()
    const buffer: array<T>
    var head: nat
    var tail: nat
    var size: nat

    /** How many slots, counted from slot 0, have been written since construction. */
    ghost var written: nat

    ghost predicate Valid()
      reads this, buffer
    {
      && 0 < MAX_ITEMS && buffer.Length == MAX_ITEMS
      && head < MAX_ITEMS && size <= MAX_ITEMS
      && tail == (if head + size < MAX_ITEMS then head + size else head + size - MAX_ITEMS)
      && size <= written <= MAX_ITEMS
      && (written < MAX_ITEMS ==> head + size <= written)
    }

    /** The abstract queue, front first. */
    ghost function Contents(): (q: seq<T>)
      requires Valid()
      reads this, buffer
      ensures |q| == size
    {
      Window(buffer[..], head, size)
    }

    constructor (maxItems: nat, noItem: T)
      requires 0 < maxItems
      ensures Valid() && fresh(buffer) && Contents() == []
      ensures MAX_ITEMS == maxItems && none == noItem && head == 0
      ensures written == 0
    {
      MAX_ITEMS, none := maxItems, noItem;
      buffer := new T[maxItems](_ => noItem);
      head, tail, size := 0, 0, 0;
      written := 0;
    }

    /** A full buffer silently drops the item. */
    method Enqueue(item: T)
      requires Valid()
      modifies this`tail, this`size, this`written, buffer
      ensures Valid()
      ensures Contents() == if old(size) < MAX_ITEMS then old(Contents()) + [item] else old(Contents())
      ensures size == if old(size) < MAX_ITEMS then old(size) + 1 else old(size)
      ensures forall i | 0 <= i < MAX_ITEMS :: buffer[i] == old(buffer[i]) || buffer[i] == item
      ensures forall i | old(written) <= i < written :: buffer[i] == item
      ensures old(written) <= written
    {
      if size < MAX_ITEMS {
        ghost var was := Contents();
        buffer[tail] := item;
        if tail + 1 > written { written := tail + 1; }
        tail := Next(tail, MAX_ITEMS);
        size := size + 1;
        assert Contents() == was + [item];
      }
    }

    /** An empty buffer answers with the default element. */
    method Dequeue() returns (item: T)
      requires Valid()
      modifies this`head, this`size
      ensures Valid()
      ensures old(size) == 0 ==> item == none && Contents() == []
      ensures old(size) > 0 ==> [item] + Contents() == old(Contents())
      ensures old(size) > 0 ==> size == old(size) - 1
    {
      if size > 0 {
        ghost var was := Contents();
        item := buffer[head];
        head := Next(head, MAX_ITEMS);
        size := size - 1;
        assert [item] + Contents() == was;
      } else {
        item := none;
      }
    }

    /** Reads a physical slot, live or not. */
    method GetAt(index: nat) returns (item: T)
      requires Valid()
      ensures item == if index < MAX_ITEMS then buffer[index] else none
    {
      if index < MAX_ITEMS {
        return buffer[index];
      }
      item := none;
    }

    /** The shift loop of RemoveAt, from slot pos up to slot last, the slot of the
        last element; j0 is the logical index of pos. */
    method CloseGap(pos: nat, last: nat, ghost was: seq<T>, ghost j0: nat)
      requires buffer.Length == MAX_ITEMS && Shifted(buffer[..], head, was, j0, j0)
      requires pos == Slot(head, j0, MAX_ITEMS) && last == Slot(head, |was| - 1, MAX_ITEMS)
      modifies buffer
      ensures Shifted(buffer[..], head, was, j0, |was| - 1)
    {
      var i := pos;
      ghost var j := j0;
      while i != last
        invariant j0 <= j < |was| && i == Slot(head, j, MAX_ITEMS)
        invariant Shifted(buffer[..], head, was, j0, j)
        decreases |was| - j
      {
        ShiftOne(buffer[..], head, was, j0, j);
        var next := Next(i, MAX_ITEMS);
        ghost var after := buffer[..][i := buffer[next]];
        buffer[i] := buffer[next];
        assert buffer[..] == after;
        i := Next(i, MAX_ITEMS);
        j := j + 1;
      }
    }

    /** Removes the element in a live physical slot, at any wrap position, by moving
        the later ones one slot towards it. */
    method RemoveAt(pos: nat)
      requires Valid()
      requires pos < MAX_ITEMS && Index(head, pos, MAX_ITEMS) < size
      modifies this`tail, this`size, buffer
      ensures Valid()
      ensures Contents() == Without(old(Contents()), Index(head, pos, MAX_ITEMS))
      ensures size == old(size) - 1
    {
      ghost var was, j0 := Contents(), Index(head, pos, MAX_ITEMS);
      CloseGap(pos, Prev(tail, MAX_ITEMS), was, j0);
      tail := Prev(tail, MAX_ITEMS);
      size := size - 1;
      ShiftDone(buffer[..], head, was, j0);
    }

    method IsEmpty() returns (b: bool)
      requires Valid()
      ensures b <==> Contents() == []
    {
      b := size == 0;
    }

    method IsFull() returns (b: bool)
      requires Valid()
      ensures b <==> |Contents()| == MAX_ITEMS
    {
      b := size == MAX_ITEMS;
    }
  }
}
