/** The fixed-capacity circular deque behind the command queue and the segment queues. */
module Queues {
  import opened Options
  import Bytes

  /** The slot k places after head in a circle of n slots. */
  function Slot(head: nat, k: nat, n: nat): nat
    requires head < n && k <= n
  {
    if head + k < n then head + k else head + k - n
  }

  lemma SlotIsModulo(head: nat, k: nat, n: nat)
    requires head < n && k <= n
    ensures (head + k) % n == Slot(head, k, n)
  {
    if head + k < n {
      Bytes.ModUnique(head + k, 0, head + k, n);
    } else {
      Bytes.ModUnique(head + k, 1, head + k - n, n);
    }
  }

  class Queue<T(0)> {
    const data: array<T>
    var head: nat
    var tail: nat
    var count: nat

    ghost predicate Valid()
      reads this
    {
      && 0 < data.Length
      && head < data.Length
      && tail == Slot(head, if count <= data.Length then count else 0, data.Length)
      && count <= data.Length
    }

    /** What the queue holds, front first. */
    ghost function Contents(): (s: seq<T>)
      requires Valid()
      reads this, data
      ensures |s| == count
    {
      seq(count, k requires 0 <= k < count reads this, data requires Valid() => data[Slot(head, k, data.Length)])
    }

    constructor (size: nat)
      requires 0 < size < 65536
      ensures Valid() && fresh(data) && data.Length == size
      ensures Contents() == []
    {
      data := new T[size];
      head, tail, count := 0, 0, 0;
    }

    predicate IsEmpty()
      requires Valid()
      reads this, data
      ensures IsEmpty() <==> Contents() == []
    {
      count == 0
    }

    predicate IsFull()
      requires Valid()
      reads this, data
      ensures IsFull() <==> |Contents()| == data.Length
    {
      count == data.Length
    }

    /** `first` tells the owner that its first-push callback is due: the queue was empty. */
    method PushBack(item: T) returns (ok: bool, first: bool)
      requires Valid()
      modifies this, data
      ensures Valid()
      ensures ok <==> |old(Contents())| < data.Length
      ensures first <==> ok && old(Contents()) == []
      ensures Contents() == if ok then old(Contents()) + [item] else old(Contents())
    {
      if IsFull() { return false, false; }
      ok, first := true, IsEmpty();
      SlotIsModulo(head, count, data.Length);
      SlotIsModulo(tail, 1, data.Length);
      data[tail] := item;
      tail := (tail + 1) % data.Length;
      count := count + 1;
    }

    method PushFront(item: T) returns (ok: bool, first: bool)
      requires Valid()
      modifies this, data
      ensures Valid()
      ensures ok <==> |old(Contents())| < data.Length
      ensures first <==> ok && old(Contents()) == []
      ensures Contents() == if ok then [item] + old(Contents()) else old(Contents())
    {
      if IsFull() { return false, false; }
      ok, first := true, IsEmpty();
      head := if head == 0 then data.Length - 1 else head - 1;
      data[head] := item;
      count := count + 1;
    }

    method PopFront() returns (item: Option<T>)
      requires Valid()
      modifies this
      ensures Valid()
      ensures old(Contents()) == [] ==> item == None && Contents() == []
      ensures old(Contents()) != [] ==> item == Some(old(Contents())[0]) && Contents() == old(Contents())[1..]
    {
      if IsEmpty() { return None; }
      item := Some(data[head]);
      SlotIsModulo(head, 1, data.Length);
      head := (head + 1) % data.Length;
      count := count - 1;
    }

    method PopBack() returns (item: Option<T>)
      requires Valid()
      modifies this
      ensures Valid()
      ensures old(Contents()) == [] ==> item == None && Contents() == []
      ensures old(Contents()) != [] ==>
                var n := |old(Contents())| - 1;
                item == Some(old(Contents())[n]) && Contents() == old(Contents())[..n]
    {
      if IsEmpty() { return None; }
      tail := if tail == 0 then data.Length - 1 else tail - 1;
      item := Some(data[tail]);
      count := count - 1;
    }

    function PeekFront(): (item: Option<T>)
      requires Valid()
      reads this, data
      ensures item == if Contents() == [] then None else Some(Contents()[0])
    {
      if IsEmpty() then None else Some(data[head])
    }

    function PeekBack(): (item: Option<T>)
      requires Valid()
      reads this, data
      ensures item == if Contents() == [] then None else Some(Contents()[|Contents()| - 1])
    {
      if IsEmpty() then None
      else
        var back := if tail == 0 then data.Length - 1 else tail - 1;
        Some(data[back])
    }

    method Clear()
      requires Valid()
      modifies this
      ensures Valid() && Contents() == []
    {
      head, tail, count := 0, 0, 0;
    }
  }
}
