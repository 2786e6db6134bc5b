/** The ring buffer behind the pool's public queue: an array whose size is a power of two, doubled when
    one more item would make a full queue look like an empty one. */
module FifoQueue {
  import opened Words

  datatype Option<T> = None | Some(value: T)

  /** The items from head up to tail, around the end of the array. */
  ghost function Ring<T>(a: seq<T>, head: nat, tail: nat): (s: seq<T>)
    requires |a| > 0
    ensures |s| == Slot(tail - head, |a|)
  {
    seq(Slot(tail - head, |a|), i requires 0 <= i < Slot(tail - head, |a|) => a[Slot(head + i, |a|)])
  }

  class Queue<T(0)> {
    var items: array<T>
    var head: nat
    var tail: nat

    ghost predicate Valid()
      reads this
    {
      items.Length >= 2 && head < items.Length && tail < items.Length
    }

    /** The items, oldest first. */
    ghost function Contents(): seq<T>
      requires Valid()
      reads this, items
    {
      Ring(items[..], head, tail)
    }

    constructor ()
      ensures Valid() && fresh(items) && Contents() == []
    {
      items := new T[32];
      head, tail := 0, 0;
    }

    /** Copy everything, the free slot included, into an array twice as big. */
    method Grow()
      requires Valid() && head == Slot(tail + 1, items.Length)
      modifies this
      ensures Valid() && fresh(items) && items.Length == 2 * old(items.Length) && Contents() == old(Contents())
      ensures head != Slot(tail + 1, items.Length)
    {
      hide Slot, Ring;
      var size := items.Length;
      var bigger := new T[2 * size];
      var i := 0;
      while i != size
        invariant 0 <= i <= size && items == old(items) && head == old(head) && tail == old(tail)
                  && items[..] == old(items[..])
        invariant forall k :: 0 <= k < i ==> bigger[k] == items[Slot(k + head, size)]
      {
        bigger[i] := items[Slot(i + head, size)];
        i := i + 1;
      }
      RingCopied(items[..], head, tail, bigger[..]);
      head := 0;
      tail := size - 1;
      items := bigger;
    }

    /** Add at the end. */
    method Push(x: T)
      requires Valid()
      modifies this, items
      ensures Valid() && (items == old(items) || fresh(items))
      ensures Contents() == old(Contents()) + [x]
    {
      hide Slot, Ring;
      if head == Slot(tail + 1, items.Length) {
        Grow();
      }
      RingAdds(items[..], head, tail, x);
      items[tail] := x;
      tail := Slot(tail + 1, items.Length);
    }

    /** Take from the front, if there is anything. */
    method Pop() returns (x: Option<T>)
      requires Valid()
      modifies this
      ensures Valid() && items == old(items)
      ensures if old(Contents()) == [] then x == None && Contents() == []
              else x == Some(old(Contents())[0]) && Contents() == old(Contents())[1..]
    {
      hide Slot, Ring;
      RingTakes(items[..], head, tail);
      if head == tail {
        return None;
      }
      x := Some(items[head]);
      head := Slot(head + 1, items.Length);
    }
  }

  // --------------------------------------------------------- rings of items

  lemma RingCopied<T>(a: seq<T>, head: nat, tail: nat, b: seq<T>)
    requires |a| >= 2 && head < |a| && tail < |a| && |b| == 2 * |a| && head == Slot(tail + 1, |a|)
    requires forall k :: 0 <= k < |a| ==> b[k] == a[Slot(k + head, |a|)]
    ensures Ring(b, 0, |a| - 1) == Ring(a, head, tail) && Slot(|a| - 1 + 1, |b|) != 0
  {
    hide Slot;
    var size := |a|;
    FullCount(head, tail, size);
    SlotSmall(size - 1, 2 * size);
    SlotSmall(size, 2 * size);
    forall k | 0 <= k < size - 1 ensures Ring(b, 0, size - 1)[k] == Ring(a, head, tail)[k] {
      SlotSmall(0 + k, 2 * size);
    }
  }

  lemma RingAdds<T>(a: seq<T>, head: nat, tail: nat, x: T)
    requires |a| >= 2 && head < |a| && tail < |a| && head != Slot(tail + 1, |a|)
    ensures Ring(a[tail := x], head, Slot(tail + 1, |a|)) == Ring(a, head, tail) + [x]
  {
    hide Slot;
    RoomForOne(head, tail, |a|);
    var before, after := Ring(a, head, tail), Ring(a[tail := x], head, Slot(tail + 1, |a|));
    forall k | 0 <= k < |after| ensures after[k] == (before + [x])[k] {
      if k < |before| {
        SlotOfItem(head, tail, |a|, k);
      }
    }
  }

  lemma RingTakes<T>(a: seq<T>, head: nat, tail: nat)
    requires |a| >= 2 && head < |a| && tail < |a|
    ensures head == tail <==> Ring(a, head, tail) == []
    ensures head != tail ==>
            && Ring(a, head, tail)[0] == a[head]
            && Ring(a, Slot(head + 1, |a|), tail) == Ring(a, head, tail)[1..]
  {
    hide Slot;
    EmptyIff(head, tail, |a|);
    if head != tail {
      SlotSmall(head, |a|);
      OneLess(head, tail, |a|);
      var before, after := Ring(a, head, tail), Ring(a, Slot(head + 1, |a|), tail);
      forall k | 0 <= k < |after| ensures after[k] == before[1..][k] {
        SlotShift(head + 1, k, |a|);
      }
    }
  }

  // ------------------------------------------------------- counting in a ring

  lemma EmptyIff(head: nat, tail: nat, size: nat)
    requires head < size && tail < size
    ensures Slot(tail - head, size) == 0 <==> head == tail
  {
    RingCount(head, tail, size);
  }

  /** The number of items, without the remainder. */
  lemma RingCount(head: nat, tail: nat, size: nat)
    requires head < size && tail < size
    ensures Slot(tail - head, size) == if tail >= head then tail - head else tail - head + size
  {
    if tail >= head {
      SlotSmall(tail - head, size);
    } else {
      DivMod(tail - head, size, -1, tail - head + size);
    }
  }

  lemma NextInRing(i: nat, size: nat)
    requires i < size
    ensures Slot(i + 1, size) == if i + 1 == size then 0 else i + 1
  {
    if i + 1 == size {
      DivMod(i + 1, size, 1, 0);
    } else {
      SlotSmall(i + 1, size);
    }
  }

  lemma FullCount(head: nat, tail: nat, size: nat)
    requires size >= 2 && head < size && tail < size && head == Slot(tail + 1, size)
    ensures Slot(tail - head, size) == size - 1
  {
    RingCount(head, tail, size);
    NextInRing(tail, size);
  }

  lemma RoomForOne(head: nat, tail: nat, size: nat)
    requires size >= 2 && head < size && tail < size && head != Slot(tail + 1, size)
    ensures Slot(Slot(tail + 1, size) - head, size) == Slot(tail - head, size) + 1
    ensures Slot(head + Slot(tail - head, size), size) == tail
  {
    RingCount(head, tail, size);
    NextInRing(tail, size);
    RingCount(head, Slot(tail + 1, size), size);
    if tail >= head {
      SlotSmall(tail, size);
    } else {
      DivMod(tail + size, size, 1, tail);
    }
  }

  lemma SlotOfItem(head: nat, tail: nat, size: nat, k: nat)
    requires size >= 2 && head < size && tail < size && k < Slot(tail - head, size)
    ensures Slot(head + k, size) != tail
  {
    RingCount(head, tail, size);
    if head + k < size {
      SlotSmall(head + k, size);
    } else {
      DivMod(head + k, size, 1, head + k - size);
    }
  }

  lemma OneLess(head: nat, tail: nat, size: nat)
    requires size >= 2 && head < size && tail < size && head != tail
    ensures Slot(tail - Slot(head + 1, size), size) == Slot(tail - head, size) - 1
  {
    RingCount(head, tail, size);
    NextInRing(head, size);
    RingCount(Slot(head + 1, size), tail, size);
  }
}
